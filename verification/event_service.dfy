/**
 * backend/services/event.service.js: the scheduling-conflict filter
 * `_checkDateCollisions`, the create, update and delete flows over the event and
 * user providers with their error wrapping, the read pass-throughs, and
 * `ACTIONS` with the service's `validateDTO`.
 */
module EventService {
  import opened Wrappers
  import opened Values
  import opened Errors
  import opened Models
  import opened Provider
  import opened Store
  import opened Schemas
  import opened Limits
  import EventProvider
  import UserProvider

  /** The message of a refused create; the apostrophe is U+2019. */
  const COLLISION_MESSAGE := "You can\U{2019}t create event for this time"

  // ---------------------------------------------------------------------------
  // _checkDateCollisions
  // ---------------------------------------------------------------------------

  /**
   * One stored event against the filter: the same owner, and either its start in
   * `[start, end]` or its end in `[end, start]`.
   */
  predicate CollidesWith(e: Event, owner: Id, start: int, end: int) {
    && e.user == Some(owner)
    && ((start <= e.startDate <= end) || (end <= e.endDate <= start))
  }

  /** `_checkDateCollisions({user, startDate, endDate})`: `_exists` with that filter. */
  predicate HasCollision(events: map<Id, Event>, owner: Id, start: int, end: int) {
    Exists(events, (id: Id, e: Event) => CollidesWith(e, owner, start, end))
  }

  /** The usual test: two closed intervals share a point. */
  predicate Overlaps(a1: int, a2: int, b1: int, b2: int) {
    a1 <= b2 && b1 <= a2
  }

  /** For a proper interval the second branch never fires: a collision is an event of the owner starting inside. */
  lemma CollisionIsStartInside(events: map<Id, Event>, owner: Id, start: int, end: int)
    requires start < end
    ensures HasCollision(events, owner, start, end) <==>
              exists id :: id in events && events[id].user == Some(owner) && start <= events[id].startDate <= end
  {
    if HasCollision(events, owner, start, end) {
      var id :| id in events && CollidesWith(events[id], owner, start, end);
      assert !(end <= events[id].endDate <= start);
    }
    if exists id :: id in events && events[id].user == Some(owner) && start <= events[id].startDate <= end {
      var id :| id in events && events[id].user == Some(owner) && start <= events[id].startDate <= end;
      assert CollidesWith(events[id], owner, start, end);
    }
  }

  /** Every reported collision with a stored event whose end is not before its start is a real overlap. */
  lemma CollisionIsOverlap(e: Event, owner: Id, start: int, end: int)
    requires start <= end && e.startDate <= e.endDate
    requires CollidesWith(e, owner, start, end)
    ensures Overlaps(e.startDate, e.endDate, start, end)
  {
  }

  /**
   * Overlaps that go unreported: an event of the owner over days 1..31 against a new
   * window 10..15 inside it, and an event 5..12 against a window 10..20 that it
   * enters from the left.
   */
  lemma OverlapsMissed(owner: Id)
    ensures var outer := Event("Conference", "Quarterly planning days", 1, 31, Some(owner));
            Overlaps(1, 31, 10, 15) && !HasCollision(map["a" := outer], owner, 10, 15)
    ensures var early := Event("Workshop", "Morning design workshop", 5, 12, Some(owner));
            Overlaps(5, 12, 10, 20) && !HasCollision(map["b" := early], owner, 10, 20)
  {
    var outer := Event("Conference", "Quarterly planning days", 1, 31, Some(owner));
    var early := Event("Workshop", "Morning design workshop", 5, 12, Some(owner));
    assert !CollidesWith(outer, owner, 10, 15);
    assert !CollidesWith(early, owner, 10, 20);
  }

  /**
   * Touching end points are treated unevenly: a new window starting where an
   * existing event ends passes, a new window ending where an existing event starts
   * is refused.
   */
  lemma TouchingIsAsymmetric(owner: Id)
    ensures !HasCollision(map["a" := Event("Morning", "Stand-up and planning", 10, 20, Some(owner))], owner, 20, 25)
    ensures HasCollision(map["b" := Event("Evening", "Retrospective meeting", 20, 25, Some(owner))], owner, 10, 20)
  {
    var a := Event("Morning", "Stand-up and planning", 10, 20, Some(owner));
    var b := Event("Evening", "Retrospective meeting", 20, 25, Some(owner));
    assert !CollidesWith(a, owner, 20, 25);
    assert "b" in map["b" := b] && CollidesWith(b, owner, 10, 20);
  }

  /** Only the owner's events count. */
  lemma CollisionIsPerOwner(events: map<Id, Event>, owner: Id, start: int, end: int)
    requires forall id :: id in events ==> events[id].user != Some(owner)
    ensures !HasCollision(events, owner, start, end)
  {
  }

  // ---------------------------------------------------------------------------
  // ACTIONS and validateDTO
  // ---------------------------------------------------------------------------

  /** `ACTIONS[action]`: the schema and the `strict` flag handed to the shared `validateDTO`. */
  function Actions(action: Action): (Schema, bool) {
    match action
    case Create => (EVENT_CREATE, true)
    case Update => (EVENT_UPDATE, false)
  }

  /** `validateDTO(dto, action, options)`: the caller's options with `strict` taken from `ACTIONS`. */
  function ValidateDto(dto: Json, action: Action, options: DtoOptions, lib: Library, now: int, diag: Diagnostic)
    : Result<Json, HttpException>
  {
    Schemas.ValidateDto(dto, Actions(action).0, options.(strict := Some(Actions(action).1)), lib, now, diag)
  }

  /** With the default options, CREATE accepts exactly the event create bodies. */
  lemma CreateValidation(dto: Json, lib: Library, now: int, diag: Diagnostic)
    ensures ValidateDto(dto, Create, DEFAULT_OPTIONS, lib, now, diag).Success? <==> EventCreateShape(dto, lib)
  {
    EventCreateSchema(dto, lib, now);
  }

  /** With the default options, UPDATE accepts exactly the event patches; an empty patch is refused with 400. */
  lemma UpdateValidation(dto: Json, lib: Library, now: int, diag: Diagnostic)
    ensures ValidateDto(dto, Update, DEFAULT_OPTIONS, lib, now, diag).Success? <==> EventUpdateShape(dto, lib, now)
    ensures ValidateDto(map[], Update, DEFAULT_OPTIONS, lib, now, diag).Failure?
    ensures ValidateDto(map[], Update, DEFAULT_OPTIONS, lib, now, diag).error.statusCode == 400
  {
    EventUpdateSchema(dto, lib, now);
    EventUpdateSchema(map[], lib, now);
  }

  /**
   * A body the CREATE schema accepts casts into a stored event whose owner is the
   * body's `user`. Its dates are in order unless the start is a numeral string
   * inside the year range (see `NumeralStartCanFollowEnd`) or the end is one the
   * store reads as milliseconds (see `NumericEndCanPrecedeStart`).
   */
  lemma ValidatedBodyCasts(dto: Json, lib: Library)
    requires EventCreateShape(dto, lib)
    ensures EventFromBody(dto, lib).Some?
    ensures !SpelledAsYear(dto["startDate"]) && !StoredAsMilliseconds(dto["endDate"]) ==>
              EventFromBody(dto, lib).value.startDate <= EventFromBody(dto, lib).value.endDate
    ensures EventFromBody(dto, lib).value.user == Some(dto["user"].s)
  {
    IsoIsCast(dto["startDate"], lib, true);
    IsoIsCast(dto["endDate"], lib, true);
    if !SpelledAsYear(dto["startDate"]) {
      JoiIsCast(dto["startDate"], lib);
    }
  }

  /** The title and description of the witnesses below. */
  function Titled(start: Value, end: Value, owner: string): Json {
    map["title" := Str("Planning"), "description" := Str("Sprint planning session"),
        "startDate" := start, "endDate" := end, "user" := Str(owner)]
  }

  /** Everything but the dates of `Titled` passes the CREATE schema. */
  lemma TitledFields(start: Value, end: Value, owner: string, lib: Library)
    requires owner != "" && lib.isObjectId(owner)
    ensures var dto := Titled(start, end, owner);
            && dto.Keys == EVENT_KEYS
            && BoundedText(dto["title"], TITLE) && BoundedText(dto["description"], DESCRIPTION)
            && ObjectIdText(dto["user"], lib)
            && dto["startDate"] == start && dto["endDate"] == end
  {
    Utf16Bounds("Planning");
    Utf16Bounds("Sprint planning session");
    assert Titled(start, end, owner).Keys == EVENT_KEYS;
  }

  /**
   * Numeric dates pass the CREATE schema as the years they spell but are stored
   * as milliseconds: `{startDate: 5000, endDate: 2021}` is accepted (the year 2021
   * lies after 5000 ms) and stored ending before it starts.
   */
  lemma NumericEndCanPrecedeStart(lib: Library, owner: string, year2021: int)
    requires lib.isIsoDate("5000") && lib.parseDate("5000").Some?
    requires lib.isIsoDate("2021") && lib.parseDate("2021") == Some(year2021) && year2021 >= 5000
    requires owner != "" && lib.isObjectId(owner)
    ensures var dto := Titled(Num(5000), Num(2021), owner);
            && EventCreateShape(dto, lib)
            && EventFromBody(dto, lib).Some?
            && EventFromBody(dto, lib).value.endDate < EventFromBody(dto, lib).value.startDate
  {
    var dto := Titled(Num(5000), Num(2021), owner);
    assert Decimal(5000) == "5000" && Decimal(2021) == "2021";
    TitledFields(Num(5000), Num(2021), owner, lib);
  }

  /** The witness below passes the CREATE schema. */
  lemma NumeralWitnessShape(lib: Library, owner: string, year2021: int)
    requires lib.isIsoDate("2021") && lib.parseDate("2021") == Some(year2021)
    requires lib.isIsoDate("2000-01-01") && lib.parseDate("2000-01-01") == Some(946684800000)
    requires year2021 > 946684800000
    requires owner != "" && lib.isObjectId(owner)
    ensures EventCreateShape(Titled(Str("2021"), Str("2000-01-01"), owner), lib)
  {
    NumeralWitnessTimes(lib, year2021);
    TitledFields(Str("2021"), Str("2000-01-01"), owner, lib);
  }

  /**
   * `Joi.ref('startDate')` reads the raw start `"2021"` as 2021 ms, the store as
   * the year 2021: `{startDate: "2021", endDate: "2000-01-01"}` is accepted and
   * stored ending before it starts.
   */
  lemma NumeralStartCanFollowEnd(lib: Library, owner: string, year2021: int)
    requires lib.isIsoDate("2021") && lib.parseDate("2021") == Some(year2021)
    requires lib.isIsoDate("2000-01-01") && lib.parseDate("2000-01-01") == Some(946684800000)
    requires year2021 > 946684800000
    requires owner != "" && lib.isObjectId(owner)
    ensures var dto := Titled(Str("2021"), Str("2000-01-01"), owner);
            && EventCreateShape(dto, lib)
            && EventFromBody(dto, lib).Some?
            && EventFromBody(dto, lib).value.endDate < EventFromBody(dto, lib).value.startDate
  {
    var dto := Titled(Str("2021"), Str("2000-01-01"), owner);
    NumeralWitnessShape(lib, owner, year2021);
    ValidatedBodyCasts(dto, lib);
    NumeralWitnessTimes(lib, year2021);
    assert TimeAt(dto, "startDate", lib) == CastTime(Str("2021"), lib);
    assert TimeAt(dto, "endDate", lib) == CastTime(Str("2000-01-01"), lib);
  }

  /** How Joi and the store read the two dates of the witness below. */
  lemma NumeralWitnessTimes(lib: Library, year2021: int)
    requires lib.isIsoDate("2021") && lib.parseDate("2021") == Some(year2021)
    requires lib.isIsoDate("2000-01-01") && lib.parseDate("2000-01-01") == Some(946684800000)
    ensures JoiTime(Str("2021"), lib) == Some(2021)
    ensures IsoTime(Str("2021"), lib, true) == Some(year2021) && CastTime(Str("2021"), lib) == Some(year2021)
    ensures IsoTime(Str("2000-01-01"), lib, true) == Some(946684800000)
    ensures CastTime(Str("2000-01-01"), lib) == Some(946684800000)
  {
    YearNumeral();
    DateIsNoNumeral();
  }

  /** `"2021"` is a numeral inside mongoose's year range. */
  lemma YearNumeral()
    ensures DecimalText("2021") && DecimalTime("2021") == 2021 && !OutsideYearRange("2021") && !Blank("2021")
  {
    var year := "2021";
    assert AllDigits(year) by { assert forall i :: 0 <= i < |year| ==> year[i] in "0123456789"; }
    DigitsAreDecimal(year);
    DigitsHaveNoDot(year);
    assert year[..4] == year;
    assert DecimalValue(year) == 2021 by {
      assert year[..3] == "202" && "202"[..2] == "20" && "20"[..1] == "2" && "2"[..0] == "";
    }
  }

  /** `"2000-01-01"` is neither blank nor a numeral. */
  lemma DateIsNoNumeral()
    ensures !DecimalText("2000-01-01") && !Blank("2000-01-01")
  {
    var end := "2000-01-01";
    assert !IsSpace(end[0]);
    assert Unsigned(end) == end;
    assert FirstDot(end) == 10 by {
      assert FirstDot(end[10..]) == 0;
      assert end[1..][1..][1..][1..][1..][1..][1..][1..][1..][1..] == end[10..];
    }
    assert !IsDigit(end[..10][4]);
  }

  /** The schema checks only the shape of `user`: an event may be created for a user that does not exist. */
  lemma UnknownOwnerAccepted(users: map<Id, User>, events: map<Id, Event>, dto: Json, lib: Library, id: Id)
    requires EventCreateShape(dto, lib)
    requires dto["user"].s !in users
    ensures EventFromBody(dto, lib).Some?
    ensures !OwnersExist(users, events[id := EventFromBody(dto, lib).value])
  {
    ValidatedBodyCasts(dto, lib);
    var events' := events[id := EventFromBody(dto, lib).value];
    assert id in events' && events'[id].user.Some? && events'[id].user.value !in users;
  }

  /**
   * An update patch the UPDATE schema accepts can still leave a stored event ending
   * before it starts: a lone future `endDate` is checked against nothing else.
   */
  lemma PatchCanInvertDates(lib: Library, owner: Id, id: Id)
    ensures var stored := Event("Planning", "Sprint planning session", 10, 20, Some(owner));
            var patch := map["endDate" := Num(5)];
            && EventUpdateShape(patch, lib, 0)
            && EventProvider.UpdateOutcome(map[id := stored], id, [("endDate", Num(5))], lib, None) == Success(stored.(endDate := 5))
            && stored.(endDate := 5).endDate < stored.(endDate := 5).startDate
  {
    var stored := Event("Planning", "Sprint planning session", 10, 20, Some(owner));
    Utf16Bounds(stored.title);
    Utf16Bounds(stored.description);
    var patch := map["endDate" := Num(5)];
    assert patch.Keys == {"endDate"};
    var es: Entries := [("endDate", Num(5))];
    assert es[..|es| - 1] == [];
    assert PatchedEvent(Draft(stored, false), es, lib) == Draft(stored.(endDate := 5), false);
  }

  // ---------------------------------------------------------------------------
  // The flows
  // ---------------------------------------------------------------------------

  /** The window and owner of a validated create body, as the store casts them. */
  function Window(dto: Json, lib: Library): (Id, int, int)
    requires EventCreateShape(dto, lib)
  {
    ValidatedBodyCasts(dto, lib);
    var e := EventFromBody(dto, lib).value;
    (dto["user"].s, e.startDate, e.endDate)
  }

  /**
   * `createEvent(dto)` on a body the CREATE schema accepted (the controller
   * validates first): a collision is refused with 400 and nothing is written;
   * otherwise the provider creates the event and the hook attaches it.
   */
  method CreateEvent(db: Database, dto: Json, lib: Library, newId: Id, hookFails: bool, fault: Option<StoreError>)
    returns (r: Result<Event, HttpException>)
    requires EventCreateShape(dto, lib)
    requires db.Valid() && newId !in db.events
    modifies db
    ensures db.Valid()
    ensures var (owner, start, end) := Window(dto, lib);
            HasCollision(old(db.events), owner, start, end) ==>
              && r == Failure(Raise(BadRequest, Some(COLLISION_MESSAGE), EMPTY_PAYLOAD))
              && db.events == old(db.events) && db.users == old(db.users)
    ensures var (owner, start, end) := Window(dto, lib);
            !HasCollision(old(db.events), owner, start, end) ==>
              && r == AsBadRequest(Mapped(EVENT_MODEL, EventProvider.CreateOutcome(dto, lib, fault)))
              && (fault.Some? ==> db.events == old(db.events) && db.users == old(db.users))
              && (fault.None? ==> r.Success? && r.value == EventFromBody(dto, lib).value)
              && (fault.None? ==> db.events == old(db.events)[newId := r.value])
              && (fault.None? && !hookFails ==> db.users == Attach(old(db.users), Some(owner), newId))
              && (fault.None? && hookFails ==> db.users == old(db.users))
  {
    var (owner, start, end) := Window(dto, lib);
    ValidatedBodyCasts(dto, lib);
    if HasCollision(db.events, owner, start, end) {
      return Failure(Raise(BadRequest, Some(COLLISION_MESSAGE), EMPTY_PAYLOAD));
    }
    var created := EventProvider.Create(db, dto, lib, newId, hookFails, fault);
    r := AsBadRequest(created);
  }

  /**
   * `updateEvent(id, dto)`: 404 before any write when the id is unknown; no
   * collision check; otherwise the provider's update, its failure wrapped as 400.
   */
  method UpdateEvent(db: Database, id: Id, es: Entries, lib: Library, hookFails: bool, fault: Option<StoreError>)
    returns (r: Result<Event, HttpException>)
    requires db.Valid()
    modifies db
    ensures db.Valid()
    ensures id !in old(db.events) ==>
              r == Failure(Raise(NotFound, None, EMPTY_PAYLOAD)) && db.events == old(db.events) && db.users == old(db.users)
    ensures id in old(db.events) ==>
              && r == AsBadRequest(Mapped(EVENT_MODEL, EventProvider.UpdateOutcome(old(db.events), id, es, lib, fault)))
              && db.events == (if r.Success? then old(db.events)[id := r.value] else old(db.events))
              && db.users == (if r.Success? && !hookFails then Attach(old(db.users), r.value.user, id) else old(db.users))
  {
    if EventProvider.GetById(db, id).None? {
      return Failure(Raise(NotFound, None, EMPTY_PAYLOAD));
    }
    var updated := EventProvider.Update(db, id, es, lib, hookFails, fault);
    r := AsBadRequest(updated);
  }

  /**
   * `deleteEvent(id)`: 404 when the id is unknown; otherwise delete, then detach the
   * id from the event's owner. A failing detach answers 400 although the event is
   * already gone.
   */
  method DeleteEvent(db: Database, id: Id, deleteFault: Option<StoreError>, detachFault: Option<StoreError>)
    returns (r: Result<bool, HttpException>)
    requires db.Valid()
    modifies db
    ensures db.Valid()
    ensures id !in old(db.events) ==>
              r == Failure(Raise(NotFound, None, EMPTY_PAYLOAD)) && db.events == old(db.events) && db.users == old(db.users)
    ensures id in old(db.events) && deleteFault.Some? ==>
              && r == AsBadRequest(Failure(MapError(EVENT_MODEL, deleteFault.value)))
              && db.events == old(db.events) && db.users == old(db.users)
    ensures id in old(db.events) && deleteFault.None? ==>
              && db.events == old(db.events) - {id}
              && (detachFault.Some? ==> r == AsBadRequest(Failure(MapError(USER_MODEL, detachFault.value))) && db.users == old(db.users))
              && (detachFault.None? ==> r == Success(true) && db.users == Detach(old(db.users), old(db.events)[id].user, id))
  {
    var event := EventProvider.GetById(db, id);
    if event.None? {
      return Failure(Raise(NotFound, None, EMPTY_PAYLOAD));
    }
    var deleted := EventProvider.Delete(db, id, deleteFault);
    if deleted.Failure? {
      return AsBadRequest(deleted);
    }
    var detached := UserProvider.DetachEvent(db, event.value.user, id, detachFault);
    if detached.Failure? {
      return AsBadRequest(Failure(detached.error));
    }
    r := Success(deleted.value);
  }

  /** `getEventsList()`: every stored event. */
  function GetEventsList(db: Database): (r: map<Id, Event>)
    reads db
    ensures r == db.events
  {
    EventProvider.Select(db.events, map[])
  }

  /** `getEventsByUserId(id)`: the events that name `id` as owner. */
  function GetEventsByUserId(db: Database, id: Id): (r: map<Id, Event>)
    reads db
    ensures r.Keys == set e | e in db.events && db.events[e].user == Some(id)
    ensures forall e :: e in r ==> r[e] == db.events[e]
  {
    EventProvider.GetByParentId(db, id)
  }

  // ---------------------------------------------------------------------------
  // The back-reference invariant across the flows
  // ---------------------------------------------------------------------------

  /** Inserting a new event and attaching it to its owner keeps users and events in step. */
  lemma CreateKeepsSynced(users: map<Id, User>, events: map<Id, Event>, id: Id, e: Event)
    requires Synced(users, events) && id !in events
    ensures Synced(Attach(users, e.user, id), events[id := e])
  {
    var users' := Attach(users, e.user, id);
    var events' := events[id := e];
    forall u, x | u in users' && x in users'[u].events
      ensures x in events' && events'[x].user == Some(u)
    {
      if x != id {
        assert x in users[u].events;
      }
    }
  }

  /** When the hook fails, an owned new event is missing from its owner's list. */
  lemma HookFailureBreaksSync(users: map<Id, User>, events: map<Id, Event>, id: Id, e: Event)
    requires Synced(users, events) && id !in events
    requires e.user.Some? && e.user.value in users
    ensures !Synced(users, events[id := e])
  {
    var events' := events[id := e];
    var u := e.user.value;
    assert id !in users[u].events;
    assert id in events' && events'[id].user.Some? && events'[id].user.value in users;
  }

  /** Re-saving an event with the same owner keeps users and events in step. */
  lemma SameOwnerUpdateKeepsSynced(users: map<Id, User>, events: map<Id, Event>, id: Id, e: Event)
    requires Synced(users, events) && id in events && events[id].user == e.user
    ensures Synced(Attach(users, e.user, id), events[id := e])
  {
    var users' := Attach(users, e.user, id);
    var events' := events[id := e];
    forall u, x | u in users' && x in users'[u].events
      ensures x in events' && events'[x].user == Some(u)
    {
      if x != id {
        assert x in users[u].events;
      }
    }
  }

  /** Moving an event to another owner leaves it listed by the previous one: the hook only adds. */
  lemma OwnerChangeBreaksSync(users: map<Id, User>, events: map<Id, Event>, id: Id, e: Event)
    requires Synced(users, events) && id in events
    requires events[id].user.Some? && events[id].user.value in users && e.user != events[id].user
    ensures !Synced(Attach(users, e.user, id), events[id := e])
  {
    var previous := events[id].user.value;
    var users' := Attach(users, e.user, id);
    var events' := events[id := e];
    assert id in users[previous].events;
    assert previous in users' && id in users'[previous].events;
    assert events'[id].user != Some(previous);
  }

  /** Deleting an event and detaching it from its owner keeps users and events in step. */
  lemma DeleteKeepsSynced(users: map<Id, User>, events: map<Id, Event>, id: Id)
    requires Synced(users, events) && id in events
    ensures Synced(Detach(users, events[id].user, id), events - {id})
  {
    var users' := Detach(users, events[id].user, id);
    var events' := events - {id};
    forall u, x | u in users' && x in users'[u].events
      ensures x in events' && events'[x].user == Some(u)
    {
      assert x in users[u].events;
    }
  }
}
