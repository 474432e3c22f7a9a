/**
 * The shared provider of backend/providers/super.js: the model name each
 * provider is built with, the existence query `_exists`, and `mapError`, which
 * turns a storage error into the message a client may see.
 */
module Provider {
  import opened Wrappers
  import opened Errors
  import opened Values
  import opened Models

  /** The model names of the two providers. */
  const USER_MODEL := "User"
  const EVENT_MODEL := "Event"

  /** MongoDB's duplicate-key error code. */
  const DUPLICATE_KEY := 11000

  /**
   * An error raised by the driver, by mongoose or by the runtime: its `code`, the
   * keys of its `keyPattern` in order when it has one, and its own message. Only
   * the driver's duplicate-key error carries a `keyPattern`.
   */
  datatype StoreError = StoreError(code: Option<int>, keyPattern: Option<seq<string>>, message: string)

  /**
   * What `throw this.mapError(error)` throws: the `Error` that `mapError` builds,
   * with `debug.original`, or the `TypeError` raised while building it, which has
   * no `debug`.
   */
  datatype MappedError = MappedError(message: string, debug: Option<Debug>)

  /** A write refused by a unique index on `key`. */
  function DuplicateKey(key: string): StoreError {
    StoreError(Some(DUPLICATE_KEY), Some([key]), "E11000 duplicate key error")
  }

  /** A document refused by mongoose's casting or validators before any write. */
  function Rejected(modelName: string): StoreError {
    StoreError(None, None, modelName + " validation failed")
  }

  /** The `TypeError` of assigning to, or saving, the `null` a lookup of a missing id returns. */
  const NULL_DOCUMENT := StoreError(None, None, "Cannot set properties of null")

  /** The `TypeError` of `Object.keys(undefined)`. */
  const NO_KEYS_MESSAGE := "Cannot convert undefined or null to object"

  /** `Object.keys(keyPattern)[0]` as a template literal renders it. */
  function FirstKey(keys: seq<string>): string {
    if keys == [] then "undefined" else keys[0]
  }

  /** The message `mapError` gives a duplicate key on the first key of `keys`. */
  function DuplicateMessage(modelName: string, keys: seq<string>): string {
    modelName + " with the same \"" + FirstKey(keys) + "\" already exists!"
  }

  /** The message `mapError` gives any other error. */
  function GenericMessage(modelName: string): string {
    modelName + " processing returns error..."
  }

  /**
   * `throw this.mapError(error)`. The object literal keyed by 11000 is built
   * before it is indexed by `code`, so `Object.keys(keyPattern)` runs for every
   * error, and an error without a `keyPattern` throws the `TypeError` instead.
   */
  function MapError(modelName: string, error: StoreError): (m: MappedError)
    ensures error.keyPattern.None? ==> m == MappedError(NO_KEYS_MESSAGE, None)
    ensures error.keyPattern.Some? ==> m.debug == Some(Debug(error.message))
    ensures error.keyPattern.Some? && error.code == Some(DUPLICATE_KEY) ==>
              m.message == DuplicateMessage(modelName, error.keyPattern.value)
    ensures error.keyPattern.Some? && error.code != Some(DUPLICATE_KEY) ==> m.message == GenericMessage(modelName)
  {
    match error.keyPattern
    case None => MappedError(NO_KEYS_MESSAGE, None)
    case Some(keys) =>
      var message :=
        if error.code == Some(DUPLICATE_KEY) then DuplicateMessage(modelName, keys) else GenericMessage(modelName);
      MappedError(message, Some(Debug(error.message)))
  }

  /** The original message reaches only `debug.original`: two errors that differ only in it map to the same message. */
  lemma MapErrorHidesOriginal(modelName: string, a: StoreError, b: StoreError)
    requires a.code == b.code && a.keyPattern == b.keyPattern
    ensures MapError(modelName, a).message == MapError(modelName, b).message
    ensures MapError(modelName, a).debug == if a.keyPattern.Some? then Some(Debug(a.message)) else None
  {
  }

  /**
   * A duplicate key names its field, and its message differs from the generic
   * one and from the `TypeError`'s.
   */
  lemma MapErrorDistinguishes(modelName: string, key: string, other: StoreError)
    requires other.code != Some(DUPLICATE_KEY)
    ensures MapError(modelName, DuplicateKey(key)).message == DuplicateMessage(modelName, [key])
    ensures MapError(modelName, DuplicateKey(key)).message != MapError(modelName, other).message
  {
    var dup := MapError(modelName, DuplicateKey(key)).message;
    if other.keyPattern.Some? {
      var gen := MapError(modelName, other).message;
      assert dup[|modelName| + 1] == 'w';
      assert gen[|modelName| + 1] == 'p';
    } else {
      assert dup[|dup| - 1] == '!';
      assert NO_KEYS_MESSAGE[|NO_KEYS_MESSAGE| - 1] == 't';
    }
  }

  /**
   * A validation failure and the `TypeError` of a missing document carry no
   * `keyPattern`, so the client sees the `TypeError` of `mapError` itself, and
   * no `debug`, rather than the generic message.
   */
  lemma MapErrorWithoutKeyPattern(modelName: string)
    ensures MapError(modelName, Rejected(modelName)) == MappedError(NO_KEYS_MESSAGE, None)
    ensures MapError(modelName, NULL_DOCUMENT) == MappedError(NO_KEYS_MESSAGE, None)
    ensures MapError(modelName, Rejected(modelName)).message != GenericMessage(modelName)
  {
    assert GenericMessage(modelName)[|GenericMessage(modelName)| - 1] == '.';
  }

  /** The generic message is given exactly to an error that has a `keyPattern` and is not a duplicate key. */
  lemma GenericNeedsKeyPattern(modelName: string, error: StoreError)
    ensures MapError(modelName, error).message == GenericMessage(modelName) <==>
              error.keyPattern.Some? && error.code != Some(DUPLICATE_KEY)
  {
    var g := GenericMessage(modelName);
    assert g[|g| - 1] == '.' && g[|modelName| + 1] == 'p';
    assert NO_KEYS_MESSAGE[|NO_KEYS_MESSAGE| - 1] == 't';
    if error.keyPattern.Some? {
      var d := DuplicateMessage(modelName, error.keyPattern.value);
      assert d[|modelName| + 1] == 'w';
    }
  }

  /** `_exists(filter)`: some stored document satisfies the filter. */
  predicate Exists<T>(docs: map<Id, T>, matches: (Id, T) -> bool) {
    exists id :: id in docs && matches(id, docs[id])
  }

  /** `catch (error) { throw this.mapError(error); }` around a storage call. */
  function Mapped<T>(modelName: string, outcome: Result<T, StoreError>): (r: Result<T, MappedError>)
    ensures r.Success? <==> outcome.Success?
    ensures r.Success? ==> r.value == outcome.value
    ensures r.Failure? ==> r.error == MapError(modelName, outcome.error)
  {
    match outcome
    case Success(v) => Success(v)
    case Failure(e) => Failure(MapError(modelName, e))
  }

  /**
   * A filter value matches a field: equal values, an array field also matches one
   * of its elements, and `null` also matches a missing field.
   */
  predicate FieldMatches(field: Option<Value>, wanted: Value) {
    if field.Some? then field.value == wanted || (field.value.Arr? && wanted in field.value.items) else wanted.Null?
  }
}
