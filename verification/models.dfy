/**
 * The stored records of backend/models/user.schema.js and
 * backend/models/event.schema.js: their fields, the constraints mongoose checks
 * before a write, the casting of a request body into a record, the `$addToSet`
 * and `$pull` updates on a user's `events` list, and the back-reference
 * invariant between users and events.
 */
module Models {
  import opened Wrappers
  import opened Limits
  import opened Values

  /** A document id (an ObjectId, kept as its string form). */
  type Id = string

  datatype User = User(firstName: string, lastName: Option<string>, email: string, phoneNumber: string, events: seq<Id>)

  /** Dates are millisecond timestamps; `user` is the optional owner. */
  datatype Event = Event(title: string, description: string, startDate: int, endDate: int, user: Option<Id>)

  /** The field constraints of the user schema (required and length-bounded strings). */
  predicate UserValid(u: User) {
    && Within(u.firstName, FIRST_NAME)
    && (u.lastName.Some? ==> Within(u.lastName.value, LAST_NAME))
    && Within(u.email, EMAIL)
    && Within(u.phoneNumber, PHONE_NUMBER)
  }

  /** The field constraints of the event schema; it states no order between the two dates. */
  predicate EventValid(e: Event) {
    Within(e.title, TITLE) && Within(e.description, DESCRIPTION)
  }

  /** The two unique indexes: no two users share an e-mail or a phone number. */
  predicate UniqueContacts(users: map<Id, User>) {
    forall a, b :: a in users && b in users && a != b ==>
      users[a].email != users[b].email && users[a].phoneNumber != users[b].phoneNumber
  }

  predicate NoDuplicates(s: seq<Id>) {
    forall i, j :: 0 <= i < j < |s| ==> s[i] != s[j]
  }

  /**
   * No user lists an event twice. `$addToSet` and `$pull` keep this, but the
   * store does not enforce it: an update may assign any list.
   */
  predicate ListsDistinct(users: map<Id, User>) {
    forall u :: u in users ==> NoDuplicates(users[u].events)
  }

  /** What every write leaves in the store: the schema constraints and the unique indexes. */
  predicate StoreValid(users: map<Id, User>, events: map<Id, Event>) {
    && (forall u :: u in users ==> UserValid(users[u]))
    && UniqueContacts(users)
    && (forall e :: e in events ==> EventValid(events[e]))
  }

  // ---------------------------------------------------------------------------
  // Casting a request body into a record
  // ---------------------------------------------------------------------------

  function StringAt(dto: Json, key: string): Option<string> {
    if key in dto && dto[key].Str? then Some(dto[key].s) else None
  }

  function TimeAt(dto: Json, key: string, lib: Library): Option<int> {
    if key in dto then CastTime(dto[key], lib) else None
  }

  /**
   * `Model.create(dto)` for a user: the record built from the body, or nothing when
   * a required path is missing, a value does not cast or a bound is broken. A
   * `null` last name is stored as no last name; a missing `events` list starts
   * empty, a given one is cast like an assignment to the path.
   */
  function UserFromBody(dto: Json, lib: Library): (r: Option<User>)
    ensures r.Some? ==> UserValid(r.value)
    ensures r.Some? ==> Some(r.value.firstName) == StringAt(dto, "firstName") && Some(r.value.email) == StringAt(dto, "email")
    ensures r.Some? ==> Some(r.value.phoneNumber) == StringAt(dto, "phoneNumber") && r.value.lastName == StringAt(dto, "lastName")
    ensures r.Some? && "events" in dto ==> EventsCast(dto["events"], lib) == Some(r.value.events)
    ensures r.Some? && "events" !in dto ==> r.value.events == []
    ensures "events" in dto && EventsCast(dto["events"], lib).None? ==> r.None?
    ensures "lastName" in dto && !dto["lastName"].Str? && !dto["lastName"].Null? ==> r.None?
  {
    if StringAt(dto, "firstName").None? || StringAt(dto, "email").None? || StringAt(dto, "phoneNumber").None? then None
    else if "lastName" in dto && !dto["lastName"].Str? && !dto["lastName"].Null? then None
    else if "events" in dto && EventsCast(dto["events"], lib).None? then None
    else
      var events := if "events" in dto then EventsCast(dto["events"], lib).value else [];
      var u := User(StringAt(dto, "firstName").value, StringAt(dto, "lastName"), StringAt(dto, "email").value,
                    StringAt(dto, "phoneNumber").value, events);
      if UserValid(u) then Some(u) else None
  }

  /** The cast of an owner reference: a valid ObjectId string, or nothing at all. */
  function OwnerAt(dto: Json, lib: Library): Result<Option<Id>, ()> {
    if "user" !in dto || dto["user"].Null? then Success(None)
    else if dto["user"].Str? && lib.isObjectId(dto["user"].s) then Success(Some(dto["user"].s))
    else Failure(())
  }

  /** `Model.create(dto)` for an event, as `UserFromBody` for a user. */
  function EventFromBody(dto: Json, lib: Library): (r: Option<Event>)
    ensures r.Some? ==> EventValid(r.value)
    ensures r.Some? ==> Some(r.value.startDate) == TimeAt(dto, "startDate", lib) && Some(r.value.endDate) == TimeAt(dto, "endDate", lib)
  {
    if || StringAt(dto, "title").None? || StringAt(dto, "description").None?
       || TimeAt(dto, "startDate", lib).None? || TimeAt(dto, "endDate", lib).None? || OwnerAt(dto, lib).Failure?
    then None
    else
      var e := Event(StringAt(dto, "title").value, StringAt(dto, "description").value,
                     TimeAt(dto, "startDate", lib).value, TimeAt(dto, "endDate", lib).value, OwnerAt(dto, lib).value);
      if EventValid(e) then Some(e) else None
  }

  // ---------------------------------------------------------------------------
  // Assigning one key of a patch to a loaded document
  // ---------------------------------------------------------------------------

  /** A loaded document during an update: the record, and whether some assignment failed to cast. */
  datatype Draft<T> = Draft(doc: T, castFailed: bool)

  /** The ids of a list, as strings in a JSON array. */
  function IdValues(ids: seq<Id>): (r: seq<Value>)
    ensures |r| == |ids| && forall i :: 0 <= i < |ids| ==> r[i] == Str(ids[i])
  {
    seq(|ids|, i requires 0 <= i < |ids| => Str(ids[i]))
  }

  /** The value a user path holds, as a patch would carry it. */
  function UserField(u: User, key: string): Option<Value> {
    match key
    case "firstName" => Some(Str(u.firstName))
    case "lastName" => if u.lastName.Some? then Some(Str(u.lastName.value)) else None
    case "email" => Some(Str(u.email))
    case "phoneNumber" => Some(Str(u.phoneNumber))
    case "events" => Some(Arr(IdValues(u.events)))
    case _ => None
  }

  /** The elements of an array cast one by one to ObjectIds; one that is not an ObjectId string fails the cast. */
  function CastIds(items: seq<Value>, lib: Library): (r: Option<seq<Id>>)
    ensures r.Some? <==> forall i :: 0 <= i < |items| ==> items[i].Str? && lib.isObjectId(items[i].s)
    ensures r.Some? ==> |r.value| == |items| && forall i :: 0 <= i < |items| ==> r.value[i] == items[i].s
    decreases |items|
  {
    if items == [] then Some([])
    else if !(items[0].Str? && lib.isObjectId(items[0].s)) then None
    else
      var rest := CastIds(items[1..], lib);
      assert forall i :: 1 <= i < |items| ==> items[i] == items[1..][i - 1];
      if rest.None? then None else Some([items[0].s] + rest.value)
  }

  /**
   * The cast of a value assigned to the `events` array path: an array casts
   * element by element, any other non-null value is first wrapped in a
   * one-element array.
   */
  function EventsCast(v: Value, lib: Library): Option<seq<Id>> {
    match v
    case Arr(items) => CastIds(items, lib)
    case Null => None
    case _ => CastIds([v], lib)
  }

  /** The string paths of the user schema. */
  const USER_TEXT_PATHS: set<string> := {"firstName", "lastName", "email", "phoneNumber"}

  /** Assigning `v` to the user path `key` fails to cast. */
  predicate Refused(key: string, v: Value, lib: Library) {
    || (key in USER_TEXT_PATHS && !v.Str? && !(key == "lastName" && v.Null?))
    || (key == "events" && EventsCast(v, lib).None?)
  }

  /**
   * `document[key] = value` on a user: a string path takes a string, the optional
   * last name also `null`, the `events` path takes the cast list, and a key the
   * schema lacks is ignored. (A `null` required path fails at the save's
   * validation; the model fails it here, with the same outcome.)
   */
  function AssignUser(d: Draft<User>, key: string, v: Value, lib: Library): Draft<User> {
    match key
    case "firstName" => if v.Str? then d.(doc := d.doc.(firstName := v.s)) else d.(castFailed := true)
    case "lastName" =>
      if v.Str? then d.(doc := d.doc.(lastName := Some(v.s)))
      else if v.Null? then d.(doc := d.doc.(lastName := None))
      else d.(castFailed := true)
    case "email" => if v.Str? then d.(doc := d.doc.(email := v.s)) else d.(castFailed := true)
    case "phoneNumber" => if v.Str? then d.(doc := d.doc.(phoneNumber := v.s)) else d.(castFailed := true)
    case "events" => if EventsCast(v, lib).Some? then d.(doc := d.doc.(events := EventsCast(v, lib).value)) else d.(castFailed := true)
    case _ => d
  }

  /** The value an event field holds, as the patch would carry it (dates as `Date`). */
  function EventField(e: Event, key: string): Option<Value> {
    match key
    case "title" => Some(Str(e.title))
    case "description" => Some(Str(e.description))
    case "startDate" => Some(Date(e.startDate))
    case "endDate" => Some(Date(e.endDate))
    case "user" => if e.user.Some? then Some(Str(e.user.value)) else Some(Null)
    case _ => None
  }

  /** `document[key] = value` on an event: dates are cast as `new Date(value)`, the owner as an ObjectId. */
  function AssignEvent(d: Draft<Event>, key: string, v: Value, lib: Library): Draft<Event> {
    match key
    case "title" => if v.Str? then d.(doc := d.doc.(title := v.s)) else d.(castFailed := true)
    case "description" => if v.Str? then d.(doc := d.doc.(description := v.s)) else d.(castFailed := true)
    case "startDate" =>
      if CastTime(v, lib).Some? then d.(doc := d.doc.(startDate := CastTime(v, lib).value)) else d.(castFailed := true)
    case "endDate" =>
      if CastTime(v, lib).Some? then d.(doc := d.doc.(endDate := CastTime(v, lib).value)) else d.(castFailed := true)
    case "user" =>
      if v.Null? then d.(doc := d.doc.(user := None))
      else if v.Str? && lib.isObjectId(v.s) then d.(doc := d.doc.(user := Some(v.s)))
      else d.(castFailed := true)
    case _ => d
  }

  /** The entries of a patch, in `Object.entries` order. */
  type Entries = seq<(string, Value)>

  /** An enumeration of `dto`: each key once, each with its value. */
  predicate Enumerates(es: Entries, dto: Json) {
    && (forall i, j :: 0 <= i < j < |es| ==> es[i].0 != es[j].0)
    && (forall i :: 0 <= i < |es| ==> es[i].0 in dto && dto[es[i].0] == es[i].1)
    && (forall k :: k in dto ==> exists i :: 0 <= i < |es| && es[i] == (k, dto[k]))
  }

  /** The document after assigning every entry in turn. */
  function PatchedUser(d: Draft<User>, es: Entries, lib: Library): Draft<User> {
    if es == [] then d else AssignUser(PatchedUser(d, es[..|es| - 1], lib), es[|es| - 1].0, es[|es| - 1].1, lib)
  }

  function PatchedEvent(d: Draft<Event>, es: Entries, lib: Library): Draft<Event> {
    if es == [] then d else AssignEvent(PatchedEvent(d, es[..|es| - 1], lib), es[|es| - 1].0, es[|es| - 1].1, lib)
  }

  /** A path the patch does not name keeps its value. */
  lemma {:induction false} PatchedUserKeeps(d: Draft<User>, es: Entries, key: string, lib: Library)
    requires forall i :: 0 <= i < |es| ==> es[i].0 != key
    ensures UserField(PatchedUser(d, es, lib).doc, key) == UserField(d.doc, key)
  {
    if es != [] {
      PatchedUserKeeps(d, es[..|es| - 1], key, lib);
    }
  }

  /** A patch without an `events` entry leaves the list as it was. */
  lemma {:induction false} PatchedUserEvents(d: Draft<User>, es: Entries, lib: Library)
    requires forall i :: 0 <= i < |es| ==> es[i].0 != "events"
    ensures PatchedUser(d, es, lib).doc.events == d.doc.events
  {
    if es != [] {
      PatchedUserEvents(d, es[..|es| - 1], lib);
    }
  }

  /** The last `events` entry of a patch replaces the list with its cast, or fails the cast. */
  lemma {:induction false} PatchedUserSetsEvents(d: Draft<User>, es: Entries, lib: Library, i: nat)
    requires i < |es| && es[i].0 == "events"
    requires forall j :: i < j < |es| ==> es[j].0 != "events"
    ensures EventsCast(es[i].1, lib).Some? ==> PatchedUser(d, es, lib).doc.events == EventsCast(es[i].1, lib).value
    ensures EventsCast(es[i].1, lib).None? ==> PatchedUser(d, es, lib).castFailed
  {
    if i < |es| - 1 {
      PatchedUserSetsEvents(d, es[..|es| - 1], lib, i);
    }
  }

  /**
   * A string path the patch names holds the patch's string afterwards; `null`
   * clears the last name; any other value fails the cast.
   */
  lemma {:induction false} PatchedUserReads(d: Draft<User>, es: Entries, lib: Library, i: nat)
    requires i < |es| && es[i].0 in USER_TEXT_PATHS
    requires forall j :: i < j < |es| ==> es[j].0 != es[i].0
    ensures es[i].1.Str? ==> UserField(PatchedUser(d, es, lib).doc, es[i].0) == Some(es[i].1)
    ensures es[i] == ("lastName", Null) ==> PatchedUser(d, es, lib).doc.lastName == None
    ensures !es[i].1.Str? && es[i] != ("lastName", Null) ==> PatchedUser(d, es, lib).castFailed
  {
    if i < |es| - 1 {
      PatchedUserReads(d, es[..|es| - 1], lib, i);
    }
  }

  /** The cast flag records whether any entry was refused, and is never cleared. */
  lemma {:induction false} PatchedUserCasts(d: Draft<User>, es: Entries, lib: Library)
    ensures PatchedUser(d, es, lib).castFailed <==>
              d.castFailed || exists i :: 0 <= i < |es| && Refused(es[i].0, es[i].1, lib)
  {
    if es != [] {
      var init := es[..|es| - 1];
      PatchedUserCasts(d, init, lib);
      if exists i :: 0 <= i < |init| && Refused(init[i].0, init[i].1, lib) {
        var i :| 0 <= i < |init| && Refused(init[i].0, init[i].1, lib);
        assert es[i] == init[i];
      }
      if exists i :: 0 <= i < |es| && Refused(es[i].0, es[i].1, lib) {
        var i :| 0 <= i < |es| && Refused(es[i].0, es[i].1, lib);
        if i < |init| {
          assert init[i] == es[i];
        }
      }
    }
  }

  lemma {:induction false} PatchedEventKeeps(d: Draft<Event>, es: Entries, key: string, lib: Library)
    requires forall i :: 0 <= i < |es| ==> es[i].0 != key
    ensures EventField(PatchedEvent(d, es, lib).doc, key) == EventField(d.doc, key)
  {
    if es != [] {
      PatchedEventKeeps(d, es[..|es| - 1], key, lib);
    }
  }

  // ---------------------------------------------------------------------------
  // $addToSet and $pull on a user's `events` list
  // ---------------------------------------------------------------------------

  /** `$addToSet`: append the id unless it is already listed. */
  function AddToSet(s: seq<Id>, x: Id): (r: seq<Id>)
    ensures x in r
    ensures forall y :: y in r <==> y in s || y == x
    ensures x in s ==> r == s
    ensures x !in s ==> r == s + [x]
    ensures NoDuplicates(s) ==> NoDuplicates(r)
  {
    if x in s then s else s + [x]
  }

  /** `$pull`: drop every occurrence of the id and keep the other entries in order. */
  function Pull(s: seq<Id>, x: Id): (r: seq<Id>)
    ensures forall y :: y in r <==> y in s && y != x
    ensures multiset(r) == multiset(s)[x := 0]
    ensures x !in s ==> r == s
  {
    if s == [] then []
    else
      assert s == [s[0]] + s[1..];
      (if s[0] == x then [] else [s[0]]) + Pull(s[1..], x)
  }

  /** `$pull` keeps a duplicate-free list duplicate-free. */
  lemma {:induction false} PullNoDuplicates(s: seq<Id>, x: Id)
    requires NoDuplicates(s)
    ensures NoDuplicates(Pull(s, x))
  {
    if s != [] {
      assert NoDuplicates(s[1..]) by {
        forall i, j | 0 <= i < j < |s[1..]| ensures s[1..][i] != s[1..][j] {
          assert s[1..][i] == s[i + 1] && s[1..][j] == s[j + 1];
        }
      }
      PullNoDuplicates(s[1..], x);
      assert s[0] !in s[1..] by {
        forall i | 0 <= i < |s[1..]| ensures s[1..][i] != s[0] {
          assert s[1..][i] == s[i + 1];
        }
      }
    }
  }

  /** `updateOne({_id: owner}, {$addToSet: {events: e}})`: no matching user leaves the map unchanged. */
  function Attach(users: map<Id, User>, owner: Option<Id>, e: Id): (r: map<Id, User>)
    ensures r.Keys == users.Keys
    ensures forall u :: u in users && owner != Some(u) ==> r[u] == users[u]
    ensures owner.Some? && owner.value in users ==>
              r[owner.value] == users[owner.value].(events := AddToSet(users[owner.value].events, e))
  {
    if owner.Some? && owner.value in users then
      users[owner.value := users[owner.value].(events := AddToSet(users[owner.value].events, e))]
    else users
  }

  /** `updateOne({_id: owner}, {$pull: {events: e}})`. */
  function Detach(users: map<Id, User>, owner: Option<Id>, e: Id): (r: map<Id, User>)
    ensures r.Keys == users.Keys
    ensures forall u :: u in users && owner != Some(u) ==> r[u] == users[u]
    ensures owner.Some? && owner.value in users ==>
              r[owner.value] == users[owner.value].(events := Pull(users[owner.value].events, e))
  {
    if owner.Some? && owner.value in users then
      users[owner.value := users[owner.value].(events := Pull(users[owner.value].events, e))]
    else users
  }

  /** Attaching twice is attaching once. */
  lemma AttachIdempotent(users: map<Id, User>, owner: Option<Id>, e: Id)
    ensures Attach(Attach(users, owner, e), owner, e) == Attach(users, owner, e)
  {
  }

  /** Detaching what was just attached to a list that did not hold it restores the list. */
  lemma {:induction false} DetachUndoesAttach(s: seq<Id>, x: Id)
    requires x !in s
    ensures Pull(AddToSet(s, x), x) == s
  {
    PullAppend(s, x);
  }

  lemma {:induction false} PullAppend(s: seq<Id>, x: Id)
    requires x !in s
    ensures Pull(s + [x], x) == s
  {
    if s != [] {
      assert (s + [x])[1..] == s[1..] + [x];
      PullAppend(s[1..], x);
    }
  }

  /** Rewriting only users' `events` lists keeps the store's constraints. */
  lemma EventListsOnlyKeepValid(users: map<Id, User>, users': map<Id, User>, events: map<Id, Event>)
    requires StoreValid(users, events)
    requires users'.Keys == users.Keys
    requires forall u :: u in users ==> users'[u] == users[u].(events := users'[u].events)
    ensures StoreValid(users', events)
  {
    forall u | u in users' ensures UserValid(users'[u]) {
      assert UserValid(users[u]);
    }
  }

  /** Attaching and detaching keep the store's constraints. */
  lemma AttachKeepsValid(users: map<Id, User>, events: map<Id, Event>, owner: Option<Id>, e: Id)
    requires StoreValid(users, events)
    ensures StoreValid(Attach(users, owner, e), events) && StoreValid(Detach(users, owner, e), events)
  {
    var a := Attach(users, owner, e);
    var d := Detach(users, owner, e);
    assert forall u :: u in users ==> a[u] == users[u].(events := a[u].events);
    EventListsOnlyKeepValid(users, a, events);
    assert forall u :: u in users ==> d[u] == users[u].(events := d[u].events);
    EventListsOnlyKeepValid(users, d, events);
  }

  /** Attaching and detaching keep every user's list free of repeats. */
  lemma AttachKeepsDistinct(users: map<Id, User>, owner: Option<Id>, e: Id)
    requires ListsDistinct(users)
    ensures ListsDistinct(Attach(users, owner, e)) && ListsDistinct(Detach(users, owner, e))
  {
    if owner.Some? && owner.value in users {
      PullNoDuplicates(users[owner.value].events, e);
    }
  }

  // ---------------------------------------------------------------------------
  // The back-reference invariant
  // ---------------------------------------------------------------------------

  /**
   * A user lists exactly the events that name it as owner: every listed id is a
   * stored event owned by that user, and every owned event is listed.
   */
  predicate Synced(users: map<Id, User>, events: map<Id, Event>) {
    && (forall u, e :: u in users && e in users[u].events ==> e in events && events[e].user == Some(u))
    && (forall e :: e in events && events[e].user.Some? && events[e].user.value in users ==>
          e in users[events[e].user.value].events)
  }

  /** Every owner an event names is a stored user. */
  predicate OwnersExist(users: map<Id, User>, events: map<Id, Event>) {
    forall e :: e in events && events[e].user.Some? ==> events[e].user.value in users
  }
}
