/**
 * The four request-body schemas (the user and event DTO files
 * under backend/DTO), written as data and read by a small interpreter of
 * the Joi features they use, and `Service.validateDTO` of
 * backend/services/super.js, which derives Joi's preferences from its `strict`
 * and `strip` options and turns a rejection into an `HttpException`, together
 * with the services' wrapping of a provider failure as 400.
 */
module Schemas {
  import opened Wrappers
  import opened Limits
  import opened Values
  import opened Errors
  import opened Provider
  import Phone

  /** Joi's `presence` preference: the flag of a key that carries none of its own. */
  datatype Presence = Required | Optional

  /** A key's own presence flag: `.required()`, `.optional()`, or nothing. */
  datatype Flag = Unflagged | RequiredFlag | OptionalFlag

  /** The checks the schemas chain on a key. */
  datatype Rule =
    | Text(bounds: Limit)              // string().min().max()
    | Email(bounds: Limit)             // string().min().max().email()
    | PhoneNumber(bounds: Limit)       // phone().min().max()
    | ObjectId                         // objectId()
    | IsoDate                          // date().iso().raw()
    | IsoDateNotBefore(ref: string)    // date().iso().min(Joi.ref(ref)).raw()
    | DateBefore(ref: string)          // date().less(Joi.ref(ref))
    | DateAfterNow                     // date().greater('now')
  {
    /** `date()` rules without `.raw()` hand back the converted `Date`. */
    predicate Converts() {
      DateBefore? || DateAfterNow?
    }
  }

  datatype Field = Field(key: string, rule: Rule, flag: Flag)

  /**
   * An object schema: its keys, whether it carries `.min(Joi.ref('$min_keys'))`,
   * and whether it carries `.strict()` (no type conversion).
   */
  datatype Schema = Schema(fields: seq<Field>, minKeysFromContext: bool, strict: bool)

  /** The preferences `validateDTO` hands to Joi: `presence`, `context.min_keys`, `stripUnknown`. */
  datatype Prefs = Prefs(presence: Presence, minKeys: nat, stripUnknown: bool)

  const USER_CREATE := Schema(
    [ Field("firstName", Text(FIRST_NAME), RequiredFlag),
      Field("lastName", Text(LAST_NAME), OptionalFlag),
      Field("email", Email(EMAIL), RequiredFlag),
      Field("phoneNumber", PhoneNumber(PHONE_NUMBER), RequiredFlag) ],
    false, true)

  const USER_UPDATE := Schema(
    [ Field("firstName", Text(FIRST_NAME), Unflagged),
      Field("lastName", Text(LAST_NAME), Unflagged),
      Field("email", Email(EMAIL), Unflagged),
      Field("phoneNumber", PhoneNumber(PHONE_NUMBER), Unflagged) ],
    true, true)

  const EVENT_CREATE := Schema(
    [ Field("title", Text(TITLE), RequiredFlag),
      Field("description", Text(DESCRIPTION), RequiredFlag),
      Field("startDate", IsoDate, RequiredFlag),
      Field("endDate", IsoDateNotBefore("startDate"), RequiredFlag),
      Field("user", ObjectId, Unflagged) ],
    false, false)

  const EVENT_UPDATE := Schema(
    [ Field("title", Text(TITLE), Unflagged),
      Field("description", Text(DESCRIPTION), Unflagged),
      Field("startDate", DateBefore("endDate"), Unflagged),
      Field("endDate", DateAfterNow, Unflagged),
      Field("user", ObjectId, Unflagged) ],
    true, false)

  // ---------------------------------------------------------------------------
  // The interpreter
  // ---------------------------------------------------------------------------

  function Keys(schema: Schema): set<string> {
    set f | f in schema.fields :: f.key
  }

  predicate IsRequired(f: Field, prefs: Prefs) {
    f.flag == RequiredFlag || (f.flag == Unflagged && prefs.presence == Required)
  }

  /** A non-empty string within the bounds (Joi's `string()` refuses `''` by default). */
  predicate BoundedText(v: Value, bounds: Limit) {
    v.Str? && v.s != "" && Within(v.s, bounds)
  }

  /** The timestamp of a value under `date()`: converted from a number or a string unless strict. */
  function DateTime(v: Value, lib: Library, convert: bool): Option<int> {
    if convert then JoiTime(v, lib) else if v.Date? then Some(v.time) else None
  }

  /** A sibling reference, resolved and read as a date; an absent sibling gives none. */
  function RefTime(dto: Json, ref: string, lib: Library): Option<int> {
    if ref in dto then JoiTime(dto[ref], lib) else None
  }

  predicate RuleHolds(rule: Rule, v: Value, dto: Json, lib: Library, now: int, convert: bool) {
    match rule
    case Text(b) => BoundedText(v, b)
    case Email(b) => BoundedText(v, b) && lib.isEmail(v.s)
    case PhoneNumber(b) => BoundedText(v, b) && Phone.PhoneHandler(v)
    case ObjectId => v.Str? && v.s != "" && lib.isObjectId(v.s)
    case IsoDate => IsoTime(v, lib, convert).Some?
    case IsoDateNotBefore(ref) =>
      && IsoTime(v, lib, convert).Some?
      && RefTime(dto, ref, lib).Some?
      && IsoTime(v, lib, convert).value >= RefTime(dto, ref, lib).value
    case DateBefore(ref) =>
      && DateTime(v, lib, convert).Some?
      && RefTime(dto, ref, lib).Some?
      && DateTime(v, lib, convert).value < RefTime(dto, ref, lib).value
    case DateAfterNow =>
      DateTime(v, lib, convert).Some? && DateTime(v, lib, convert).value > now
  }

  predicate FieldOk(f: Field, dto: Json, prefs: Prefs, lib: Library, now: int, convert: bool) {
    if f.key in dto then RuleHolds(f.rule, dto[f.key], dto, lib, now, convert) else !IsRequired(f, prefs)
  }

  /** Whether Joi accepts `dto` (the first failing rule only decides the message). */
  predicate Accepts(schema: Schema, dto: Json, prefs: Prefs, lib: Library, now: int) {
    && (prefs.stripUnknown || dto.Keys <= Keys(schema))
    && FieldsOk(schema, dto, prefs, lib, now)
    && (!schema.minKeysFromContext || |dto.Keys * Keys(schema)| >= prefs.minKeys)
  }

  /** Every declared key passes its presence flag and its rule. */
  predicate FieldsOk(schema: Schema, dto: Json, prefs: Prefs, lib: Library, now: int) {
    forall i :: 0 <= i < |schema.fields| ==> FieldOk(schema.fields[i], dto, prefs, lib, now, !schema.strict)
  }

  /** The value a key holds after validation: a converted `Date` for `date()` rules without `.raw()`. */
  function Converted(schema: Schema, key: string, v: Value, lib: Library): Value {
    if !schema.strict && (exists f :: f in schema.fields && f.key == key && f.rule.Converts()) && JoiTime(v, lib).Some?
    then Date(JoiTime(v, lib).value)
    else v
  }

  /** `schema.validateAsync(dto, prefs)`: the validated value, or nothing on rejection. */
  function Validate(schema: Schema, dto: Json, prefs: Prefs, lib: Library, now: int): (r: Option<Json>)
    ensures r.Some? <==> Accepts(schema, dto, prefs, lib, now)
    ensures r.Some? && !prefs.stripUnknown ==> r.value.Keys == dto.Keys
    ensures r.Some? && prefs.stripUnknown ==> r.value.Keys == dto.Keys * Keys(schema)
    ensures r.Some? ==> forall k :: k in r.value && k in dto && r.value[k] != dto[k] ==> r.value[k].Date?
  {
    if Accepts(schema, dto, prefs, lib, now) then
      var kept := if prefs.stripUnknown then dto.Keys * Keys(schema) else dto.Keys;
      Some(map k | k in kept :: Converted(schema, k, dto[k], lib))
    else None
  }

  // ---------------------------------------------------------------------------
  // Service.validateDTO
  // ---------------------------------------------------------------------------

  /** `validateDTO`'s options; an absent one takes its default. */
  datatype DtoOptions = DtoOptions(strict: Option<bool>, strip: Option<bool>, expose: Option<bool>, status: Option<Kind>)

  const DEFAULT_OPTIONS := DtoOptions(None, None, None, None)

  /** `DTO_ACTIONS`: the two validations a service offers. */
  datatype Action = Create | Update

  /** The message and the stack trace of the validator's error, as the library words them. */
  datatype Diagnostic = Diagnostic(message: string, stack: string)

  /** The Joi preferences derived from `strict` and `strip`. */
  function PrefsFor(strict: bool, strip: bool): (p: Prefs)
    ensures strict ==> p.presence == Required && p.minKeys == 0
    ensures !strict ==> p.presence == Optional && p.minKeys == 1
    ensures p.stripUnknown == strip
  {
    Prefs(if strict then Required else Optional, if strict then 0 else 1, strip)
  }

  /** `Service.validateDTO(dto, schema, options)`. */
  function ValidateDto(dto: Json, schema: Schema, options: DtoOptions, lib: Library, now: int, diag: Diagnostic)
    : (r: Result<Json, HttpException>)
    ensures var prefs := PrefsFor(options.strict.GetOr(true), options.strip.GetOr(false));
            && (r.Success? <==> Accepts(schema, dto, prefs, lib, now))
            && (r.Success? ==> Validate(schema, dto, prefs, lib, now) == Some(r.value))
    ensures r.Failure? ==>
              var kind := options.status.GetOr(BadRequest);
              var text := if options.expose.GetOr(false) then diag.stack else diag.message;
              r.error == Raise(kind, Some(text), EMPTY_PAYLOAD)
  {
    var strict := options.strict.GetOr(true);
    var strip := options.strip.GetOr(false);
    match Validate(schema, dto, PrefsFor(strict, strip), lib, now)
    case Some(validated) => Success(validated)
    case None =>
      var text := if options.expose.GetOr(false) then diag.stack else diag.message;
      Failure(Raise(options.status.GetOr(BadRequest), Some(text), EMPTY_PAYLOAD))
  }

  /** `throw HttpException.BAD_REQUEST(error.message, { debug: error.debug })` around a provider call, the catch both services share. */
  function AsBadRequest<T>(r: Result<T, MappedError>): (w: Result<T, HttpException>)
    ensures w.Success? <==> r.Success?
    ensures w.Success? ==> w.value == r.value
    ensures w.Failure? ==> w.error.statusCode == 400 && w.error.debug == r.error.debug
    ensures w.Failure? ==> w.error.message == if r.error.message != "" then r.error.message else Message(BadRequest)
  {
    match r
    case Success(v) => Success(v)
    case Failure(m) => Failure(Raise(BadRequest, Some(m.message), Payload(None, m.debug, None)))
  }

  // ---------------------------------------------------------------------------
  // The four schemas, stated field by field, under the preferences the
  // services derive (CREATE strict, UPDATE not strict, nothing stripped)
  // ---------------------------------------------------------------------------

  const USER_KEYS: set<string> := {"firstName", "lastName", "email", "phoneNumber"}
  const EVENT_KEYS: set<string> := {"title", "description", "startDate", "endDate", "user"}

  predicate ObjectIdText(v: Value, lib: Library) {
    v.Str? && v.s != "" && lib.isObjectId(v.s)
  }

  predicate EmailText(v: Value, lib: Library) {
    BoundedText(v, EMAIL) && lib.isEmail(v.s)
  }

  predicate PhoneText(v: Value) {
    BoundedText(v, PHONE_NUMBER) && Phone.PhoneHandler(v)
  }

  /** A user create body: the three required keys, `lastName` optional, nothing else. */
  predicate UserCreateShape(dto: Json, lib: Library) {
    && dto.Keys <= USER_KEYS
    && "firstName" in dto && BoundedText(dto["firstName"], FIRST_NAME)
    && ("lastName" in dto ==> BoundedText(dto["lastName"], LAST_NAME))
    && "email" in dto && EmailText(dto["email"], lib)
    && "phoneNumber" in dto && PhoneText(dto["phoneNumber"])
  }

  /** The checks of a user patch on the keys it carries. */
  predicate UserPatchFields(dto: Json, lib: Library) {
    && ("firstName" in dto ==> BoundedText(dto["firstName"], FIRST_NAME))
    && ("lastName" in dto ==> BoundedText(dto["lastName"], LAST_NAME))
    && ("email" in dto ==> EmailText(dto["email"], lib))
    && ("phoneNumber" in dto ==> PhoneText(dto["phoneNumber"]))
  }

  /** A user patch: at least one of the four keys, each with its create-time check. */
  predicate UserUpdateShape(dto: Json, lib: Library) {
    dto.Keys <= USER_KEYS && dto != map[] && UserPatchFields(dto, lib)
  }

  /** The checks of an event create body on its five keys. */
  predicate EventCreateFields(dto: Json, lib: Library) {
    && "title" in dto && BoundedText(dto["title"], TITLE)
    && "description" in dto && BoundedText(dto["description"], DESCRIPTION)
    && "startDate" in dto && IsoTime(dto["startDate"], lib, true).Some?
    && "endDate" in dto && IsoTime(dto["endDate"], lib, true).Some?
    && JoiTime(dto["startDate"], lib).Some?
    && JoiTime(dto["startDate"], lib).value <= IsoTime(dto["endDate"], lib, true).value
    && "user" in dto && ObjectIdText(dto["user"], lib)
  }

  /**
   * An event create body: every key required, both dates ISO, and the end's ISO
   * time not before the start as `Joi.ref` reads it from the raw start (a number
   * or a numeral string as milliseconds).
   */
  predicate EventCreateShape(dto: Json, lib: Library) {
    dto.Keys <= EVENT_KEYS && EventCreateFields(dto, lib)
  }

  /** The checks of an event patch: a start only together with a later end, an end only in the future. */
  predicate EventPatchFields(dto: Json, lib: Library, now: int) {
    && ("title" in dto ==> BoundedText(dto["title"], TITLE))
    && ("description" in dto ==> BoundedText(dto["description"], DESCRIPTION))
    && ("startDate" in dto ==>
          && "endDate" in dto
          && JoiTime(dto["startDate"], lib).Some? && JoiTime(dto["endDate"], lib).Some?
          && JoiTime(dto["startDate"], lib).value < JoiTime(dto["endDate"], lib).value)
    && ("endDate" in dto ==> JoiTime(dto["endDate"], lib).Some? && JoiTime(dto["endDate"], lib).value > now)
    && ("user" in dto ==> ObjectIdText(dto["user"], lib))
  }

  /** An event patch: at least one of the five keys, each with its check. */
  predicate EventUpdateShape(dto: Json, lib: Library, now: int) {
    dto.Keys <= EVENT_KEYS && dto != map[] && EventPatchFields(dto, lib, now)
  }

  lemma UserKeys()
    ensures Keys(USER_CREATE) == USER_KEYS && Keys(USER_UPDATE) == USER_KEYS
  {
    assert USER_CREATE.fields[0] in USER_CREATE.fields && USER_UPDATE.fields[0] in USER_UPDATE.fields;
    assert USER_CREATE.fields[1] in USER_CREATE.fields && USER_UPDATE.fields[1] in USER_UPDATE.fields;
    assert USER_CREATE.fields[2] in USER_CREATE.fields && USER_UPDATE.fields[2] in USER_UPDATE.fields;
    assert USER_CREATE.fields[3] in USER_CREATE.fields && USER_UPDATE.fields[3] in USER_UPDATE.fields;
  }

  lemma EventKeys()
    ensures Keys(EVENT_CREATE) == EVENT_KEYS && Keys(EVENT_UPDATE) == EVENT_KEYS
  {
    assert EVENT_CREATE.fields[0] in EVENT_CREATE.fields && EVENT_UPDATE.fields[0] in EVENT_UPDATE.fields;
    assert EVENT_CREATE.fields[1] in EVENT_CREATE.fields && EVENT_UPDATE.fields[1] in EVENT_UPDATE.fields;
    assert EVENT_CREATE.fields[2] in EVENT_CREATE.fields && EVENT_UPDATE.fields[2] in EVENT_UPDATE.fields;
    assert EVENT_CREATE.fields[3] in EVENT_CREATE.fields && EVENT_UPDATE.fields[3] in EVENT_UPDATE.fields;
    assert EVENT_CREATE.fields[4] in EVENT_CREATE.fields && EVENT_UPDATE.fields[4] in EVENT_UPDATE.fields;
  }

  /** The key-count rule of an UPDATE schema over a body without unknown keys. */
  lemma MinKeysOne(dto: Json, keys: set<string>)
    requires dto.Keys <= keys
    ensures |dto.Keys * keys| >= 1 <==> dto != map[]
  {
    assert dto.Keys * keys == dto.Keys;
    if dto == map[] {
      assert dto.Keys == {};
    } else {
      var k :| k in dto;
      assert k in dto.Keys;
    }
  }

  lemma UserCreateFields(dto: Json, lib: Library, now: int)
    ensures FieldsOk(USER_CREATE, dto, PrefsFor(true, false), lib, now) <==>
            && "firstName" in dto && BoundedText(dto["firstName"], FIRST_NAME)
            && ("lastName" in dto ==> BoundedText(dto["lastName"], LAST_NAME))
            && "email" in dto && EmailText(dto["email"], lib)
            && "phoneNumber" in dto && PhoneText(dto["phoneNumber"])
  {
    var prefs := PrefsFor(true, false);
    var fs := USER_CREATE.fields;
    if FieldsOk(USER_CREATE, dto, prefs, lib, now) {
      assert FieldOk(fs[0], dto, prefs, lib, now, false);
      assert FieldOk(fs[1], dto, prefs, lib, now, false);
      assert FieldOk(fs[2], dto, prefs, lib, now, false);
      assert FieldOk(fs[3], dto, prefs, lib, now, false);
    }
  }

  /** The user create schema accepts exactly the bodies of shape `UserCreateShape`. */
  lemma UserCreateSchema(dto: Json, lib: Library, now: int)
    ensures Accepts(USER_CREATE, dto, PrefsFor(true, false), lib, now) <==> UserCreateShape(dto, lib)
  {
    UserKeys();
    UserCreateFields(dto, lib, now);
  }

  lemma UserUpdateFields(dto: Json, lib: Library, now: int)
    ensures FieldsOk(USER_UPDATE, dto, PrefsFor(false, false), lib, now) <==> UserPatchFields(dto, lib)
  {
    var prefs := PrefsFor(false, false);
    var fs := USER_UPDATE.fields;
    if FieldsOk(USER_UPDATE, dto, prefs, lib, now) {
      assert FieldOk(fs[0], dto, prefs, lib, now, false);
      assert FieldOk(fs[1], dto, prefs, lib, now, false);
      assert FieldOk(fs[2], dto, prefs, lib, now, false);
      assert FieldOk(fs[3], dto, prefs, lib, now, false);
    }
  }

  /** The user update schema accepts exactly the bodies of shape `UserUpdateShape`. */
  lemma UserUpdateSchema(dto: Json, lib: Library, now: int)
    ensures Accepts(USER_UPDATE, dto, PrefsFor(false, false), lib, now) <==> UserUpdateShape(dto, lib)
  {
    UserKeys();
    UserUpdateFields(dto, lib, now);
    if dto.Keys <= USER_KEYS {
      MinKeysOne(dto, USER_KEYS);
    }
  }

  lemma EventCreateFieldsSound(dto: Json, lib: Library, now: int)
    requires FieldsOk(EVENT_CREATE, dto, PrefsFor(true, false), lib, now)
    ensures EventCreateFields(dto, lib)
  {
    var prefs := PrefsFor(true, false);
    var fs := EVENT_CREATE.fields;
    assert FieldOk(fs[0], dto, prefs, lib, now, true);
    assert FieldOk(fs[1], dto, prefs, lib, now, true);
    assert FieldOk(fs[2], dto, prefs, lib, now, true);
    assert FieldOk(fs[3], dto, prefs, lib, now, true);
    assert FieldOk(fs[4], dto, prefs, lib, now, true);
  }

  lemma EventCreateFieldsComplete(dto: Json, lib: Library, now: int)
    requires EventCreateFields(dto, lib)
    ensures FieldsOk(EVENT_CREATE, dto, PrefsFor(true, false), lib, now)
  {
    var prefs := PrefsFor(true, false);
    var fs := EVENT_CREATE.fields;
    assert FieldOk(fs[3], dto, prefs, lib, now, true);
  }

  /** The event create schema accepts exactly the bodies of shape `EventCreateShape`. */
  lemma EventCreateSchema(dto: Json, lib: Library, now: int)
    ensures Accepts(EVENT_CREATE, dto, PrefsFor(true, false), lib, now) <==> EventCreateShape(dto, lib)
  {
    EventKeys();
    if FieldsOk(EVENT_CREATE, dto, PrefsFor(true, false), lib, now) {
      EventCreateFieldsSound(dto, lib, now);
    }
    if EventCreateFields(dto, lib) {
      EventCreateFieldsComplete(dto, lib, now);
    }
  }

  /** A patch's start must come before the patch's own end, which must be present. */
  lemma EventPatchStart(dto: Json, lib: Library, now: int)
    requires FieldsOk(EVENT_UPDATE, dto, PrefsFor(false, false), lib, now)
    requires "startDate" in dto
    ensures "endDate" in dto
    ensures JoiTime(dto["startDate"], lib).Some? && JoiTime(dto["endDate"], lib).Some?
    ensures JoiTime(dto["startDate"], lib).value < JoiTime(dto["endDate"], lib).value
  {
    assert FieldOk(EVENT_UPDATE.fields[2], dto, PrefsFor(false, false), lib, now, true);
  }

  /** A patch's end must lie after the current time. */
  lemma EventPatchEnd(dto: Json, lib: Library, now: int)
    requires FieldsOk(EVENT_UPDATE, dto, PrefsFor(false, false), lib, now)
    requires "endDate" in dto
    ensures JoiTime(dto["endDate"], lib).Some? && JoiTime(dto["endDate"], lib).value > now
  {
    assert FieldOk(EVENT_UPDATE.fields[3], dto, PrefsFor(false, false), lib, now, true);
  }

  lemma EventUpdateFieldsSound(dto: Json, lib: Library, now: int)
    requires FieldsOk(EVENT_UPDATE, dto, PrefsFor(false, false), lib, now)
    ensures EventPatchFields(dto, lib, now)
  {
    var prefs := PrefsFor(false, false);
    var fs := EVENT_UPDATE.fields;
    assert FieldOk(fs[0], dto, prefs, lib, now, true);
    assert FieldOk(fs[1], dto, prefs, lib, now, true);
    assert FieldOk(fs[4], dto, prefs, lib, now, true);
    if "startDate" in dto {
      EventPatchStart(dto, lib, now);
    }
    if "endDate" in dto {
      EventPatchEnd(dto, lib, now);
    }
  }

  lemma EventUpdateFieldsComplete(dto: Json, lib: Library, now: int)
    requires EventPatchFields(dto, lib, now)
    ensures FieldsOk(EVENT_UPDATE, dto, PrefsFor(false, false), lib, now)
  {
    var prefs := PrefsFor(false, false);
    var fs := EVENT_UPDATE.fields;
    assert FieldOk(fs[2], dto, prefs, lib, now, true);
  }

  /** The event update schema accepts exactly the bodies of shape `EventUpdateShape`. */
  lemma EventUpdateSchema(dto: Json, lib: Library, now: int)
    ensures Accepts(EVENT_UPDATE, dto, PrefsFor(false, false), lib, now) <==> EventUpdateShape(dto, lib, now)
  {
    EventKeys();
    if dto.Keys <= EVENT_KEYS {
      MinKeysOne(dto, EVENT_KEYS);
    }
    if FieldsOk(EVENT_UPDATE, dto, PrefsFor(false, false), lib, now) {
      EventUpdateFieldsSound(dto, lib, now);
    }
    if EventPatchFields(dto, lib, now) {
      EventUpdateFieldsComplete(dto, lib, now);
    }
  }

  /**
   * `.strict()` turns conversion off: a numeric phone number is refused by both user
   * schemas, whatever the preferences, rather than read as a string.
   */
  lemma StrictRefusesNumericPhone(dto: Json, prefs: Prefs, lib: Library, now: int)
    requires "phoneNumber" in dto && dto["phoneNumber"].Num?
    ensures !Accepts(USER_CREATE, dto, prefs, lib, now)
    ensures !Accepts(USER_UPDATE, dto, prefs, lib, now)
  {
    assert !FieldOk(USER_CREATE.fields[3], dto, prefs, lib, now, false);
    assert !FieldOk(USER_UPDATE.fields[3], dto, prefs, lib, now, false);
  }

  /** Without stripping, a schema that converts no key hands back the body it was given. */
  lemma UnconvertedKept(schema: Schema, dto: Json, prefs: Prefs, lib: Library, now: int)
    requires Validate(schema, dto, prefs, lib, now).Some? && !prefs.stripUnknown
    requires schema.strict || forall f :: f in schema.fields ==> !f.rule.Converts()
    ensures Validate(schema, dto, prefs, lib, now) == Some(dto)
  {
    var r := Validate(schema, dto, prefs, lib, now).value;
    forall k | k in r ensures r[k] == dto[k] {
      assert Converted(schema, k, dto[k], lib) == dto[k];
    }
    assert r.Keys == dto.Keys;
    assert r == dto;
  }

  /** The user create schema hands back the body it was given. */
  lemma UserCreateKeepsBody(dto: Json, lib: Library, now: int)
    requires Validate(USER_CREATE, dto, PrefsFor(true, false), lib, now).Some?
    ensures Validate(USER_CREATE, dto, PrefsFor(true, false), lib, now) == Some(dto)
  {
    UnconvertedKept(USER_CREATE, dto, PrefsFor(true, false), lib, now);
  }

  /** `.raw()` on both dates: the event create schema hands back the body it was given. */
  lemma EventCreateKeepsBody(dto: Json, lib: Library, now: int)
    requires Validate(EVENT_CREATE, dto, PrefsFor(true, false), lib, now).Some?
    ensures Validate(EVENT_CREATE, dto, PrefsFor(true, false), lib, now) == Some(dto)
  {
    UnconvertedKept(EVENT_CREATE, dto, PrefsFor(true, false), lib, now);
  }
}
