# Scheduling API core, modelled in Dafny

This project models the core of a small Express/Mongoose service that keeps
**users** and their calendar **events**. Its parts are:

- the HTTP error vocabulary (the four status tables and `HttpException` with its 22 factories);
- the shared length limits;
- the Joi request schemas, with their phone-number extension and the shared `validateDTO`;
- the Mongoose record constraints and the post-save hook that keeps each user's `events` list in step with the events;
- the two storage providers, with their error mapping;
- the event and user services, including the scheduling-conflict filter;
- the query-parameter handlers of the router;
- the error-handling middleware.

The modules follow the source layout:

- `Wrappers`: the `Option` and `Result` types.
- `Limits`: the length-bound table.
- `Errors`: the status tables and `HttpException`.
- `Values`: request values, plus the library checks the core calls but does not define.
- `Phone`: the phone-number check.
- `Schemas`: the four Joi schemas as data, their interpreter, and `validateDTO`.
- `Models`: the records, casting and patching, and `$addToSet`/`$pull`.
- `Store`: a `Database` class holding the two collections and the post-save hook.
- `Provider`: the shared provider base.
- `UserProvider`, `EventProvider`, `EventService`, `UserService`, `Router`, `Middleware`: one each per source file.

Several things are parameters rather than behaviour:

- **Storage faults.** A failure the driver could report on a write (`create`, `update`, `attachEvent`, `detachEvent`, `delete`) is an `Option<StoreError>` argument. A failure inside the post-save hook is the boolean `hookFails`. Reads take no fault; see "## Left out".
- **Library checks.** Joi's e-mail check, Mongoose's `ObjectId.isValid`, the ISO 8601 pattern and JavaScript's `new Date(string)` are fields of a `Library` value. Around them the model spells out how Joi and Mongoose read a date: a number, or a decimal numeral string, as milliseconds for `Joi.ref`; a numeral as milliseconds for the store only outside the years -271820..275760.
- **Other inputs.** The current time, the environment and new record ids are arguments.

Some behaviour of the code is worth stating on its own, because each point has a lemma:

- **Touching windows.** A new window `[20, 25]` after an existing `[10, 20]` of the same owner is not a collision (`EventService.TouchingIsAsymmetric`). A collision is refused with 400 (BAD_REQUEST).
- **Detach after delete.** In `deleteEvent`, a failing detach after a successful delete is rethrown as 400 although the event is gone (`EventService.DeleteEvent`). Only the post-save hook swallows its failure.
- **Unknown keys.** All four request schemas reject unknown keys, the event update schema included; `stripUnknown` defaults to false.
- **Dates after an update.** `updateEvent` can leave a stored event ending before it starts (`EventService.PatchCanInvertDates`).
- **Lists after a user update.** The provider's `update` assigns every key of its argument, `events` included, so it can store a list that names an event twice (`UserProvider.EventsPatchCanRepeat`). The user update schema never lets `events` through.
- **Errors without a key pattern.** `mapError` builds its message table before indexing it, so `Object.keys(keyPattern)` runs for every error. An error without a `keyPattern` (a validation failure, a missing document, a driver fault other than a duplicate key) makes it throw `TypeError: Cannot convert undefined or null to object`, which has no `debug`, instead of the generic message (`Provider.MapErrorWithoutKeyPattern`, `Provider.GenericNeedsKeyPattern`). The services pass that text on as a 400 (`UserService.RefusedPatchAnswersTypeError`).
- **Numeric dates.** `date().iso()` tests its pattern against the decimal text of a number, so `2021` passes as the year 2021, while the store casts a number as milliseconds. A create body can then be stored ending before it starts (`EventService.NumericEndCanPrecedeStart`). A numeral string such as `"2021"` is read by `Joi.ref` as 2021 ms but cast by the store as the year 2021, so a start can also be stored after its end (`EventService.NumeralStartCanFollowEnd`).
- **Lengths.** Every length bound counts UTF-16 code units, as JavaScript's `length` does, so a character above U+FFFF counts twice (`Limits.AstralNameTooLong`).

## Model

| member | source | states |
|---|---|---|
| Limits.TableWellFormed | shared/limits.js:7-19 | every bound has 1 <= MIN <= MAX, so the empty string satisfies no bounded field |
| Limits.Utf16Bounds | shared/limits.js:7 | a string's JavaScript length lies between its number of characters and twice that, and equals it exactly when no character lies above U+FFFF |
| Limits.AstralLength | shared/limits.js:7 | a string made only of characters above U+FFFF has twice as many code units as characters |
| Limits.AstralNameTooLong | shared/limits.js:11 | 33 characters above U+FFFF are 66 code units, outside the first-name bound of 64 |
| Errors.Code | backend/helpers/errors/constants.js:51-74 | every code lies in 400..504, and a code is >= 500 exactly for the five server kinds |
| Errors.Message | backend/helpers/errors/constants.js:76-99 | every kind has a non-empty status text |
| Errors.KindNamed | backend/helpers/errors/constants.js:1-24 | `HTTP_STATUS` maps each of the 22 names to the kind of that same name, and nothing else |
| Errors.KindOfCode | backend/helpers/errors/constants.js:26-49 | `CODE_STATUS` is the inverse of `STATUS_CODES`: it returns a kind only for that kind's code, and returns it for every code of a kind |
| Errors.TablesInjective | backend/helpers/errors/constants.js:26-74 | no two kinds share a code or a name |
| Errors.NewHttpException | backend/helpers/errors/index.js:20-33 | code defaults to 400 and status to 'ClientRequestError'; name is 'HttpException'; message is the truthy payload message or else the status; expose is the override or else code <= 500; debug is kept as given |
| Errors.Raise | backend/helpers/errors/index.js:42-368 | factory K gives `STATUS_CODES[K]` and `STATUS_MESSAGES[K]`; a truthy message argument wins, otherwise the status text; debug and the expose override come from the payload |
| Errors.PayloadMessageIgnored | backend/helpers/errors/index.js:102-108 | the message argument is spread last, so `payload.message` never reaches the exception |
| Errors.ExposeThreshold | backend/helpers/errors/index.js:29-31 | by default 500 is exposed and 501..504 are not |
| Values.JoiTime | backend/DTO/event/event.create.dto.js:17 | what `Joi.ref` reads from a raw sibling: a `Date` is its own instant; a boolean, `null`, an array or an object gives none |
| Values.CastTime | backend/models/event.schema.js:20-21 | the store's `Date` cast: a `Date` is its own instant; the empty string, a boolean, `null`, an array or an object fails the cast |
| Values.IsoTime | backend/DTO/event/event.create.dto.js:16-17 | with conversion, a non-blank string passes when it matches the ISO pattern and is read by `new Date`, and a number when its decimal text does; a `Date` is its own instant; nothing else, and nothing but a `Date` in strict mode, passes |
| Values.IsoIsCast | backend/models/event.schema.js:20-21 | whatever passes the ISO rule also casts in the store, and to the same instant unless the store reads it as milliseconds (a number, or a numeral outside the year range) |
| Values.JoiIsCast | backend/DTO/event/event.create.dto.js:16-17 | what `Joi.ref` reads from a raw start is what the store casts, unless the start is a numeral string inside the year range |
| Values.NumberIsoIsNotCast | backend/DTO/event/event.create.dto.js:16-17 | a number passes the ISO rule as the instant its decimal text spells, but `Joi.ref` and the store read it as that many milliseconds; the two differ exactly when those instants differ |
| Values.YearNumeralReadTwice | backend/DTO/event/event.create.dto.js:16-17 | a numeral string inside the year range is read by `Joi.ref` as that many milliseconds, but by the store through `new Date`, as a year |
| Phone.ExtensionValidate | backend/DTO/extensions/phone.js:40-44 | the `'invalid'` error is reported exactly when `PHONE_HANDLER` refuses the value |
| Phone.TwoDigitCodes | backend/DTO/extensions/phone.js:10 | the two-digit alternatives of the country group are exactly 2x..6x, 8x and 9x |
| Phone.TailSound | backend/DTO/extensions/phone.js:10 | every string `(?:\W*\d){0,n}\d` matches has only digits and non-word characters, ends in two digits or is one digit, and has at most n+1 digits |
| Phone.TailComplete | backend/DTO/extensions/phone.js:10 | every string of that shape matches `(?:\W*\d){0,n}\d` |
| Phone.PhoneCharacterization | backend/DTO/extensions/phone.js:1-15 | `PHONE_HANDLER` accepts a string exactly when it is '+', a listed country code, then a tail of that shape with at most 14 digits; it refuses every non-string |
| Phone.AcceptedPhone | backend/DTO/extensions/phone.js:10 | an accepted number starts with '+' and a non-zero digit, holds no ASCII letter or underscore, and ends in two digits |
| Schemas.Validate | backend/services/super.js:29-33 | a schema returns a value exactly when it accepts; it keeps the body's keys (or the known ones when stripping); only date conversions change values |
| Schemas.PrefsFor | backend/services/super.js:30-32 | strict gives presence required with min_keys 0; non-strict gives optional with min_keys 1; stripUnknown is `strip` |
| Schemas.ValidateDto | backend/services/super.js:20-39 | defaults are strict true, strip false, expose false, status BAD_REQUEST; success returns the validated value; failure raises the status kind with the error message, or the stack when `expose` is set |
| Schemas.AsBadRequest | backend/services/event.service.js:56-58 | a provider failure becomes 400 with the thrown message and its debug, none for the `TypeError`; a success passes through |
| Schemas.UserKeys | backend/DTO/user/user.create.dto.js:13-18 | both user schemas declare exactly firstName, lastName, email and phoneNumber |
| Schemas.EventKeys | backend/DTO/event/event.create.dto.js:13-19 | both event schemas declare exactly title, description, startDate, endDate and user |
| Schemas.MinKeysOne | backend/DTO/user/user.update.dto.js:19 | with min_keys 1, a body of declared keys passes the key count exactly when it is not empty |
| Schemas.UserCreateSchema | backend/DTO/user/user.create.dto.js:13-18 | the create schema accepts exactly: bounded firstName; optional bounded lastName; bounded e-mail; bounded phone passing the phone check; no other key |
| Schemas.UserUpdateSchema | backend/DTO/user/user.update.dto.js:13-20 | the update schema accepts exactly non-empty bodies of the four keys, each with its create-time check |
| Schemas.EventCreateSchema | backend/DTO/event/event.create.dto.js:13-19 | the create schema accepts exactly: bounded title and description; ISO start and end (strings or numbers whose text is ISO, or dates); the end's ISO instant not before the start's raw value as `Joi.ref` reads it (a number or a numeral string as milliseconds); a valid ObjectId user; no other key |
| Schemas.EventPatchStart | backend/DTO/event/event.update.dto.js:16 | a patch's startDate requires the patch's own endDate, strictly later |
| Schemas.EventPatchEnd | backend/DTO/event/event.update.dto.js:17 | a patch's endDate must be strictly after now |
| Schemas.EventUpdateSchema | backend/DTO/event/event.update.dto.js:13-19 | the update schema accepts exactly non-empty bodies of the five keys: bounded texts, ObjectId user, start before the patch's end, end after now |
| Schemas.StrictRefusesNumericPhone | backend/DTO/user/user.create.dto.js:17-18 | under `.strict()` a numeric phone number is refused, never converted, by both user schemas |
| Schemas.UserCreateKeepsBody | backend/DTO/user/user.create.dto.js:18 | the user create schema returns the body unchanged |
| Schemas.EventCreateKeepsBody | backend/DTO/event/event.create.dto.js:16-17 | `.raw()` makes the event create schema return the body unchanged |
| Models.UserFromBody | backend/models/user.schema.js:5-37 | a created user satisfies every field bound and holds the body's strings, a `null` last name as none; its `events` are the ObjectId cast of the body's list, or empty without one; a list that does not cast, or a last name that is neither a string nor `null`, refuses the body |
| Models.EventFromBody | backend/models/event.schema.js:6-25 | a created event satisfies the title and description bounds and holds the body's cast dates; no order between them is required |
| Models.PatchedUserKeeps | backend/providers/user.provider.js:40-42 | a path the patch does not name, `events` included, keeps its value |
| Models.PatchedUserEvents | backend/providers/user.provider.js:40-42 | a patch without an `events` entry leaves the list as it was |
| Models.PatchedUserSetsEvents | backend/providers/user.provider.js:40-44 | the last `events` entry replaces the list with its ObjectId cast, or fails the cast when an element is not an ObjectId |
| Models.CastIds | backend/models/user.schema.js:34 | an array casts to ObjectIds exactly when every element is an ObjectId string, and then to those strings in order |
| Models.PatchedUserReads | backend/providers/user.provider.js:40-42 | the last entry for a string path sets it to that string; a `null` last name clears it; any other non-string fails the cast |
| Models.PatchedUserCasts | backend/providers/user.provider.js:40-44 | the save fails to cast exactly when some entry gives a string path a non-string or gives `events` a value that does not cast to ObjectIds |
| Models.PatchedEventKeeps | backend/providers/event.provider.js:55-57 | an event field the patch does not name keeps its value |
| Models.AddToSet | backend/providers/user.provider.js:58-65 | `$addToSet` appends the id when it is absent and changes nothing when it is present, so the id becomes a member, nothing else is added, and a list without repeats keeps none |
| Models.Pull | backend/providers/user.provider.js:73-80 | `$pull` removes every occurrence of the id and keeps every other entry as often as it occurred |
| Models.PullNoDuplicates | backend/providers/user.provider.js:73-80 | `$pull` keeps a duplicate-free list duplicate-free |
| Models.Attach | backend/models/event.schema.js:27-31 | only the named owner's list changes, gaining the id; an unknown or absent owner changes nothing |
| Models.Detach | backend/providers/user.provider.js:73-80 | only the named user's list changes, losing the id; an unknown user changes nothing |
| Models.AttachIdempotent | backend/providers/user.provider.js:58-65 | attaching twice is attaching once |
| Models.DetachUndoesAttach | backend/providers/user.provider.js:58-80 | detaching a freshly attached id restores the list |
| Models.AttachKeepsValid | backend/models/user.schema.js:5-37 | attach and detach keep every record bound and both unique indexes |
| Models.AttachKeepsDistinct | backend/providers/user.provider.js:58-80 | `$addToSet` and `$pull` keep every user's list free of repeats |
| Provider.MapError | backend/providers/super.js:31-43 | an error without a `keyPattern` throws the `TypeError` of `Object.keys(undefined)` with no debug; with one, code 11000 gives `<model> with the same "<first key>" already exists!` and any other code `<model> processing returns error...`, the original message kept only in debug |
| Provider.MapErrorHidesOriginal | backend/providers/super.js:32-40 | the mapped message does not depend on the original message, which reaches only `debug.original` and only when the error has a `keyPattern` |
| Provider.MapErrorDistinguishes | backend/providers/super.js:32-35 | a duplicate key names its field, and its message equals neither the generic one nor the `TypeError`'s |
| Provider.MapErrorWithoutKeyPattern | backend/providers/super.js:32-35 | a validation failure and the missing-document `TypeError` both map to the `TypeError` of `Object.keys(undefined)` with no debug, never to the generic message |
| Provider.GenericNeedsKeyPattern | backend/providers/super.js:32-35 | the generic message is given exactly to an error that has a `keyPattern` and is not a duplicate key |
| Provider.Mapped | backend/providers/super.js:31-43 | a storage failure is rethrown through `mapError`; a success passes through |
| Store.Database.AfterEventSave | backend/models/event.schema.js:27-35 | after a save, the event is attached to the owner it names; a failing hook leaves the users as they were, and the save stands |
| UserProvider.GetById | backend/providers/user.provider.js:15-17 | the stored user, or none exactly when the id is unknown |
| UserProvider.Find | backend/providers/user.provider.js:26-28 | exactly the users the filter matches, unchanged |
| UserProvider.FindAll | backend/providers/user.provider.js:26-28 | the default empty filter returns every user |
| UserProvider.Conflict | backend/models/user.schema.js:18-33 | a duplicate-key error exactly when another user has the same e-mail or phone number; e-mail is reported first |
| UserProvider.CreateKeepsValid | backend/models/user.schema.js:5-37 | a successful create keeps every constraint, the unique indexes included |
| UserProvider.DuplicateEmailRefused | backend/providers/user.provider.js:89-97 | a body whose e-mail is taken is refused with `User with the same "email" already exists!` |
| UserProvider.Create | backend/providers/user.provider.js:89-98 | the user cast from the body, `events` included, is stored under the new id, or the mapped error is returned and nothing changes |
| UserProvider.EventsBodyRefusesBadId | backend/providers/user.provider.js:89-98 | a create body whose `events` names something that is not an ObjectId fails validation, and nothing is written |
| UserProvider.UpdatePatchesOnly | backend/providers/user.provider.js:36-50 | after an update, each named string path holds its last value (a `null` last name clears it), `events` holds the ObjectId cast of its last entry, and every path the patch does not name keeps its value |
| UserProvider.UpdateKeepsValid | backend/providers/user.provider.js:36-50 | a successful update keeps every record bound and both unique indexes |
| UserProvider.EventsPatchCanRepeat | backend/providers/user.provider.js:40-44 | a patch `{events: [e, e]}` is stored as it is, leaving a list that names e twice |
| UserProvider.EventsPatchRefusesBadId | backend/providers/user.provider.js:40-48 | an `events` entry holding something that is not an ObjectId makes the save fail with the validation error |
| UserProvider.Update | backend/providers/user.provider.js:36-50 | assigning every entry in turn, `events` included, then saving stores the patched record, or returns the mapped error and changes nothing |
| UserProvider.AttachEvent | backend/providers/user.provider.js:58-65 | returns true and attaches the id, even for an unknown user; a fault returns the mapped error |
| UserProvider.DetachEvent | backend/providers/user.provider.js:73-80 | returns true and detaches the id, even for an unknown user; a fault returns the mapped error |
| UserProvider.Delete | backend/providers/user.provider.js:105-112 | returns whether a user was removed; afterwards no user has that id |
| EventProvider.GetById | backend/providers/event.provider.js:15-17 | the stored event, or none exactly when the id is unknown |
| EventProvider.Select | backend/providers/event.provider.js:42 | exactly the events the filter matches, unchanged |
| EventProvider.GetByParentId | backend/providers/event.provider.js:24-26 | exactly the events whose user is the given id |
| EventProvider.Remapped | backend/providers/event.provider.js:36-40 | a truthy `id` moves to `_id` and the `id` key is removed; other filters are unchanged |
| EventProvider.Find | backend/providers/event.provider.js:35-43 | rewrites the caller's filter in place, then returns the events it matches |
| EventProvider.FindByMisspeltId | backend/providers/event.provider.js:36-42 | a filter on `id` finds the event with that `_id` |
| EventProvider.Create | backend/providers/event.provider.js:74-83 | stores the cast event under the new id and runs the hook, or returns the mapped error and changes nothing |
| EventProvider.UpdateKeepsUnnamed | backend/providers/event.provider.js:51-65 | an update keeps every field the patch does not name |
| EventProvider.Update | backend/providers/event.provider.js:51-65 | assigns the entries in turn, saves, and runs the hook; a failure returns the mapped error and changes nothing |
| EventProvider.Delete | backend/providers/event.provider.js:90-97 | returns whether an event was removed; afterwards no event has that id; users are untouched |
| EventService.CollisionIsStartInside | backend/services/event.service.js:106-123 | for start < end, a collision is exactly an event of the same owner starting inside [start, end]; the second branch never fires |
| EventService.CollisionIsOverlap | backend/services/event.service.js:106-123 | every reported collision with a well-ordered event is a real overlap |
| EventService.OverlapsMissed | backend/services/event.service.js:106-123 | a window nested in an existing event, or entered from its left, is not reported |
| EventService.TouchingIsAsymmetric | backend/services/event.service.js:110-121 | a window starting where an event ends passes; a window ending where an event starts collides |
| EventService.CollisionIsPerOwner | backend/services/event.service.js:107-108 | only events of the same owner can collide |
| EventService.CreateValidation | backend/services/event.service.js:139-148 | CREATE validates with the create schema in strict mode; with default options it accepts exactly the event create bodies |
| EventService.UpdateValidation | backend/services/event.service.js:139-148 | UPDATE validates with the update schema, non-strict; with default options it accepts exactly the event patches, and an empty patch gets 400 |
| EventService.ValidatedBodyCasts | backend/services/event.service.js:49-55 | a validated body casts to an event owned by the body's user, with start <= end unless the start is a numeral string inside the year range or the store reads the end as milliseconds |
| EventService.NumeralStartCanFollowEnd | backend/DTO/event/event.create.dto.js:16-17 | a create body with `startDate: "2021"` and `endDate: "2000-01-01"` is accepted and casts to an event that ends before it starts |
| EventService.NumericEndCanPrecedeStart | backend/DTO/event/event.create.dto.js:16-17 | a create body with `startDate: 5000` and `endDate: 2021` is accepted and casts to an event that ends before it starts |
| EventService.UnknownOwnerAccepted | backend/services/event.service.js:49-55 | an event can be created for a user that does not exist |
| EventService.PatchCanInvertDates | backend/services/event.service.js:67-79 | an accepted patch `{endDate}` can leave the stored end before the start |
| EventService.CreateEvent | backend/services/event.service.js:49-59 | a collision gives 400 "You can’t create event for this time" and writes nothing; otherwise the provider's create, with a failure wrapped as 400 |
| EventService.UpdateEvent | backend/services/event.service.js:67-79 | an unknown id gives 404 before any write; otherwise the provider's update, with no collision check and a failure wrapped as 400 |
| EventService.DeleteEvent | backend/services/event.service.js:86-100 | an unknown id gives 404; otherwise delete, then detach from the owner; a failing detach gives 400 although the event is gone |
| EventService.GetEventsList | backend/services/event.service.js:17-19 | every stored event |
| EventService.GetEventsByUserId | backend/services/event.service.js:35-37 | the events whose user is the given id |
| EventService.CreateKeepsSynced | backend/models/event.schema.js:27-31 | inserting an event and attaching it keeps users and events in step |
| EventService.HookFailureBreaksSync | backend/models/event.schema.js:32-34 | when the hook fails, the owner does not list the new event |
| EventService.SameOwnerUpdateKeepsSynced | backend/models/event.schema.js:27-31 | re-saving with the same owner keeps users and events in step |
| EventService.OwnerChangeBreaksSync | backend/models/event.schema.js:27-35 | after an owner change the previous owner still lists the event |
| EventService.DeleteKeepsSynced | backend/services/event.service.js:91-92 | deleting and detaching keeps users and events in step |
| UserService.CreateValidation | backend/services/user.service.js:105-114 | CREATE validates with the create schema in strict mode, whatever `strict` the caller passes, and accepts exactly the user create bodies |
| UserService.UpdateValidation | backend/services/user.service.js:105-114 | UPDATE validates with the update schema, non-strict, and accepts exactly the user patches, and an empty patch gets 400 |
| UserService.ValidatedBodyCasts | backend/services/user.service.js:48-54 | a validated body always casts, so only a fault or a unique index can refuse it |
| UserService.CreateUser | backend/services/user.service.js:48-54 | for a body the CREATE schema accepted: the stored record, with no events, or 400 with the mapped message; it fails exactly on a storage fault or a unique-index conflict |
| UserService.UpdateUser | backend/services/user.service.js:62-74 | an unknown id gives 404 before any write; otherwise the provider's update, with a failure wrapped as 400 |
| UserService.RefusedPatchAnswersTypeError | backend/services/user.service.js:69-73 | an `events` entry that is not an ObjectId is answered with 400, the `TypeError` text of `mapError` and no debug |
| UserService.FieldAfterPatch | backend/services/user.service.js:69-70 | each field holds the patch's value when the patch names it, and its stored value otherwise |
| UserService.ValidatedPatchCasts | backend/services/user.service.js:69-70 | an accepted patch never fails to cast |
| UserService.ValidatedPatchFields | backend/services/user.service.js:69-70 | an accepted patch overwrites only the fields it names and leaves `events` as stored |
| UserService.ValidatedPatchValid | backend/services/user.service.js:69-70 | the record an accepted patch leaves behind meets every bound of the user schema |
| UserService.ValidatedPatchApplies | backend/services/user.service.js:69-73 | an update with an accepted patch fails exactly on a fault or a unique index |
| UserService.DeleteUser | backend/services/user.service.js:81-90 | a failed existence check gives 404; otherwise the provider's delete; events are never touched |
| UserService.DeleteLeavesDanglingOwners | backend/services/user.service.js:81-90 | deleting a user who owns an event leaves that event naming a missing user |
| UserService.GetUserEvents | backend/services/user.service.js:35-37 | the events whose user is the given id |
| UserService.UserEventsMatchList | backend/services/user.service.js:35-37 | while users and events are in step, those are exactly the events in the user's list |
| UserService.UserEventsIgnoreList | backend/services/user.service.js:35-37 | the answer depends on the events alone, not on the user's list |
| Router.HexRunShape | backend/helpers/router.js:9 | `[0-9a-fA-F]{k}` matches exactly the strings of k hex digits |
| Router.IdParamShape | backend/helpers/router.js:9 | the id route matches exactly 24 hex characters in either case |
| Router.StringThenValue | backend/helpers/router.js:34-36 | a positive integer's decimal string is a numeral that parses back to it |
| Router.ValueThenString | backend/helpers/router.js:34-36 | a numeral is the decimal string of its parsed value |
| Router.StringLength | backend/helpers/router.js:34 | a positive integer's numeral has at most k digits exactly when it is below 10^k |
| Router.Parse | backend/helpers/router.js:34-37 | a number exactly for a numeral of 1 to 9 digits, with its value in [1, 999999999]; otherwise null |
| Router.IdHandlerText | backend/helpers/router.js:26-38 | a string id gives its value when it matches `^[1-9]\d{0,8}$`, otherwise null |
| Router.IdHandlerNumber | backend/helpers/router.js:26-38 | a numeric id in [1, 999999999] passes unchanged; any other gives null |
| Router.PageHandlerCases | backend/helpers/router.js:54-77 | undefined gives undefined; a number in (0, 247483647) passes and any other gives undefined; a string is handled as by `ID_HANDLER` |
| Router.NeverZero | backend/helpers/router.js:34-73 | neither handler ever returns 0 |
| Router.PageBranchesDisagree | backend/helpers/router.js:62-74 | page 300000000 passes as a string but gives undefined as a number |
| Middleware.IndexOf | backend/middleware/common.js:70 | `indexOf` gives the first occurrence, or -1 when there is none |
| Middleware.ApiTest | backend/middleware/common.js:70 | `~path.indexOf('/api/')` is truthy exactly when the path contains `/api/` |
| Middleware.ErrorResponse | backend/middleware/common.js:50-75 | status is the error's code or 500; a body only on API paths; message is the kind name in production, else the error's message; debug (or stack) only in development |
| Middleware.ExposeIgnored | backend/middleware/common.js:51-67 | `expose` has no effect on the response |
| Middleware.ProductionHidesDetails | backend/middleware/common.js:51-60 | in production an exception of kind K answers K's code with only K's name |
| Middleware.MissingStatusIs500 | backend/middleware/common.js:51-55 | an error without a code answers 500, named INTERNAL_SERVER_ERROR in production |
| Middleware.NotFound | backend/middleware/common.js:38-44 | NOT_FOUND is thrown only when `req.is` is the string 'application/json'; otherwise 410 with an empty body |
| Middleware.UnmatchedRouteIsGone | backend/middleware/common.js:38-44 | Express's `req.is` is a function, so an unmatched route always gets 410 |

## Left out

- I/O and the runtime. The model leaves out the server bootstrap, sockets, logging (including the hook's `console.log`), stack capture, configuration loading, routing glue and the controllers. The controllers' one relevant habit is kept as a precondition: they validate first, then pass the original body on.
- Concurrency. The check-then-create in `createEvent` and the delete-then-detach in `deleteEvent` run in sequence here. Races between requests are not modelled.
- Library checks. Joi's e-mail check, the ISO 8601 pattern, `new Date(string)` and Mongoose's `ObjectId.isValid` are abstract functions.
- Values.CastTime: strings that `Number()` reads but that are not plain decimal numerals (an exponent, hexadecimal, surrounding spaces) go through `new Date` here; an array or object value fails the cast. The `Date` range of ±8.64e15 ms and floating-point timestamps are not modelled: a fraction is dropped.
- Storage semantics. The model leaves out Mongoose's casting of non-string values into string paths (a number is refused, not converted), timestamps, `toObject`, projections and query options. Filters compare whole values, and an array path also matches one of its elements; query operators are not modelled.
- Wording from outside the source. The driver's duplicate-key text, Mongoose's validation-error text and the TypeError text for a missing document are placeholders. They reach the client only as `debug.original` of a duplicate key or another error that has a `keyPattern`; every other failure reaches it as the `TypeError` text of `mapError` itself, which is Node's and fixed.
- Read failures. `getById`, `find`, `getByParentId` and `_exists` are not wrapped in `mapError`, and the model gives them no fault. A failing read, such as Mongoose's cast error for an id that is not an ObjectId, would reach `Middleware.ErrorResponse` without a status code and answer 500; the model's reads always succeed.
- Ownerless filters. An event without an owner attaches to and detaches from no user. The collision filter with an undefined `user` is not modelled; every CREATE body has one.
- The existence check of `deleteUser`. It queries `{ id }` rather than `{ _id }`, and its outcome depends on Mongoose query settings not shown here. It is a boolean parameter.
- Pagination and search. The `pagination` and `term` arguments of the list reads are unused by the source and are not modelled.
- Router inputs. Non-integer numbers and array- or object-valued query parameters are not modelled.
- Environment. The `prodEnv` setting and the development test of `NODE_ENV` are independent booleans. `res.status` with a code Express rejects is not modelled.
- Modules not shown. The constants modules for limits, model names and actions, and the DTO index files, are not part of this model. The limits are taken from shared/limits.js, and the model names are "User" and "Event".
- Values.IsoIsCast: the same instant is not promised for what the store reads as milliseconds; `Values.NumberIsoIsNotCast` states how a number's two readings differ.
- EventService.ValidatedBodyCasts: start <= end is not promised when the start is a numeral string inside the year range or the store reads the end as milliseconds; `EventService.NumeralStartCanFollowEnd` and `EventService.NumericEndCanPrecedeStart` show bodies stored the other way round.
- Models.AssignUser: assigning `null` to `events` is treated as a cast failure. Mongoose would store `null`, and the record has no null list. `Models.UserFromBody` does the same for a `null` list in a create body.
- Models.StoreValid: lists free of repeats are not part of the store invariant, because the provider's update can break them. `Models.ListsDistinct` states them separately, and `Models.AttachKeepsDistinct` proves that attach and detach keep them.
- Models.Synced: the owner-list invariant is stated and its preservation is proved for each flow, but `Database.Valid` does not include it. The source does not keep it when the hook fails or an owner changes.
