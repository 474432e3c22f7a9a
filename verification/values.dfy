/**
 * Values as they reach the validators and the store: the JSON shapes of a request
 * body, a JavaScript `Date`, and the library checks the core calls but does not
 * define (Joi's e-mail and date parsing, mongoose's `ObjectId.isValid`).
 */
module Values {
  import opened Wrappers

  /** A JSON value of a request body, or a `Date` object (a millisecond timestamp). */
  datatype Value =
    | Str(s: string)
    | Num(n: int)
    | Bool(b: bool)
    | Null
    | Date(time: int)
    | Arr(items: seq<Value>)
    | Compound   // a nested object

  /** A plain object: its own enumerable keys and their values. */
  type Json = map<string, Value>

  /**
   * The library checks, as given functions: Joi's `string().email()`, mongoose's
   * `Types.ObjectId.isValid`, the ISO 8601 pattern Joi's `date().iso()` tests, and
   * JavaScript's `new Date(string)`, which gives a timestamp or an invalid date.
   */
  datatype Library = Library(
    isEmail: string -> bool,
    isObjectId: string -> bool,
    isIsoDate: string -> bool,
    parseDate: string -> Option<int>)

  // ---------------------------------------------------------------------------
  // Characters and decimal numerals
  // ---------------------------------------------------------------------------

  predicate IsDigit(c: char) {
    '0' <= c <= '9'
  }

  predicate AllDigits(s: string) {
    forall i :: 0 <= i < |s| ==> IsDigit(s[i])
  }

  /** A character of JavaScript's `\s` class. */
  predicate IsSpace(c: char) {
    || c == ' ' || c == '\t' || c == '\n' || c == '\r' || c == '\U{000B}' || c == '\U{000C}'
    || c == '\U{00A0}' || c == '\U{1680}' || '\U{2000}' <= c <= '\U{200A}' || c == '\U{2028}' || c == '\U{2029}'
    || c == '\U{202F}' || c == '\U{205F}' || c == '\U{3000}' || c == '\U{FEFF}'
  }

  /** `/^\s*$/`: the empty string, or only white space. */
  predicate Blank(s: string) {
    forall i :: 0 <= i < |s| ==> IsSpace(s[i])
  }

  /** The value of a string of digits, read from the left. */
  function DecimalValue(s: string): nat
    requires AllDigits(s)
  {
    if s == [] then 0
    else
      assert IsDigit(s[|s| - 1]);
      DecimalValue(s[..|s| - 1]) * 10 + (s[|s| - 1] as int - '0' as int)
  }

  function DigitChar(d: nat): char
    requires d < 10
  {
    ('0' as nat + d) as char
  }

  /** The decimal digits of a natural number, most significant first. */
  function Digits(n: nat): (r: string)
    ensures r != [] && AllDigits(r)
  {
    if n < 10 then [DigitChar(n)] else Digits(n / 10) + [DigitChar(n % 10)]
  }

  /** `String(n)` for an integer: its decimal digits, after a minus sign when it is negative. */
  function Decimal(n: int): string {
    if n < 0 then "-" + Digits(-n) else Digits(n)
  }

  /** `s` without one leading sign. */
  function Unsigned(s: string): string {
    if |s| > 0 && (s[0] == '+' || s[0] == '-') then s[1..] else s
  }

  /** The index of the first `'.'` in `s`, or its length. */
  function FirstDot(s: string): (k: nat)
    ensures k <= |s| && (k < |s| ==> s[k] == '.')
  {
    if s == [] || s[0] == '.' then 0 else 1 + FirstDot(s[1..])
  }

  /** `/^[+-]?\d+(\.\d+)?$/`: a decimal numeral with an optional sign and fraction. */
  predicate DecimalText(s: string) {
    var u := Unsigned(s);
    var k := FirstDot(u);
    && k > 0 && AllDigits(u[..k])
    && (k < |u| ==> k + 1 < |u| && AllDigits(u[k + 1..]))
  }

  /** The signed whole part of a decimal numeral: what a `Date` keeps of the number it spells. */
  function DecimalTime(s: string): int
    requires DecimalText(s)
  {
    var u := Unsigned(s);
    var m: int := DecimalValue(u[..FirstDot(u)]);
    if s[0] == '-' then -m else m
  }

  /**
   * `Number(s) >= 275761 || Number(s) < -271820` for a decimal numeral: the
   * numbers mongoose reads as milliseconds rather than as a year.
   */
  predicate OutsideYearRange(s: string)
    requires DecimalText(s)
  {
    var u := Unsigned(s);
    var k := FirstDot(u);
    var m := DecimalValue(u[..k]);
    if s[0] == '-' then m > 271820 || (m == 271820 && exists i :: k < i < |u| && u[i] != '0')
    else m >= 275761
  }

  /** A string of digits has no `'.'`. */
  lemma {:induction false} DigitsHaveNoDot(s: string)
    requires AllDigits(s)
    ensures FirstDot(s) == |s|
  {
    if s != [] {
      assert IsDigit(s[0]);
      DigitsHaveNoDot(s[1..]);
    }
  }

  /** A non-empty string of digits is a decimal numeral worth the value of its digits. */
  lemma DigitsAreDecimal(s: string)
    requires s != [] && AllDigits(s)
    ensures DecimalText(s) && DecimalTime(s) == DecimalValue(s) && !Blank(s)
  {
    assert IsDigit(s[0]) && !IsSpace(s[0]);
    assert Unsigned(s) == s;
    DigitsHaveNoDot(s);
    assert s[..|s|] == s;
  }

  // ---------------------------------------------------------------------------
  // The three readings of a date
  // ---------------------------------------------------------------------------

  /**
   * The timestamp Joi's `date()` gives a value without a format, for a converting
   * `date()` rule and for the sibling a `Joi.ref` names: a `Date` as it is; a
   * number, or a decimal numeral string through `parseFloat`, as milliseconds; a
   * blank string none; any other string through `new Date`. Other values give
   * none (in every schema here the sibling's own rule refuses them).
   */
  function JoiTime(v: Value, lib: Library): (t: Option<int>)
    ensures v.Date? ==> t == Some(v.time)
    ensures v.Bool? || v.Null? || v.Arr? || v.Compound? ==> t.None?
  {
    match v
    case Date(time) => Some(time)
    case Num(n) => Some(n)
    case Str(s) =>
      if Blank(s) then None
      else if DecimalText(s) then Some(DecimalTime(s))
      else lib.parseDate(s)
    case _ => None
  }

  /**
   * Mongoose's Date cast: a `Date` as it is; a number as milliseconds; `''` and
   * `null` as null, which the required date paths refuse; a decimal numeral
   * outside the year range as milliseconds; any other string through
   * `new Date`. Booleans, arrays and objects are refused.
   */
  function CastTime(v: Value, lib: Library): (t: Option<int>)
    ensures v.Date? ==> t == Some(v.time)
    ensures v.Bool? || v.Null? || v.Arr? || v.Compound? || v == Str("") ==> t.None?
  {
    match v
    case Date(time) => Some(time)
    case Num(n) => Some(n)
    case Str(s) =>
      if s == "" then None
      else if DecimalText(s) && OutsideYearRange(s) then Some(DecimalTime(s))
      else lib.parseDate(s)
    case _ => None
  }

  /**
   * The timestamp of a value under `date().iso()`: a `Date`, or, with conversion,
   * a non-blank string matching the ISO pattern, or a number whose decimal text
   * matches it (the pattern is tested against `String(value)`), read by
   * `new Date` of that text; without conversion (`strict`) only a `Date` passes.
   */
  function IsoTime(v: Value, lib: Library, convert: bool): (t: Option<int>)
    ensures v.Date? ==> t == Some(v.time)
    ensures t.Some? && !v.Date? ==> convert && (v.Str? || v.Num?)
    ensures convert && v.Str? ==> t == if !Blank(v.s) && lib.isIsoDate(v.s) then lib.parseDate(v.s) else None
    ensures convert && v.Num? ==> t == if lib.isIsoDate(Decimal(v.n)) then lib.parseDate(Decimal(v.n)) else None
  {
    match v
    case Date(time) => Some(time)
    case Str(s) => if convert && !Blank(s) && lib.isIsoDate(s) then lib.parseDate(s) else None
    case Num(n) => if convert && lib.isIsoDate(Decimal(n)) then lib.parseDate(Decimal(n)) else None
    case _ => None
  }

  /**
   * A value the store reads as milliseconds although the ISO rule may read it as
   * a date: a number, or a decimal numeral string outside the year range
   * (`"20210101"`).
   */
  predicate StoredAsMilliseconds(v: Value) {
    v.Num? || (v.Str? && DecimalText(v.s) && OutsideYearRange(v.s))
  }

  /**
   * A decimal numeral string inside the year range (`"2021"`): milliseconds to
   * Joi's `date()`, a year to the store.
   */
  predicate SpelledAsYear(v: Value) {
    v.Str? && DecimalText(v.s) && !OutsideYearRange(v.s)
  }

  /**
   * A value the ISO rule accepts always casts, and the store reads it as the same
   * instant unless it is one it reads as milliseconds.
   */
  lemma IsoIsCast(v: Value, lib: Library, convert: bool)
    requires IsoTime(v, lib, convert).Some?
    ensures CastTime(v, lib).Some?
    ensures !StoredAsMilliseconds(v) ==> CastTime(v, lib) == IsoTime(v, lib, convert)
  {
    if v.Str? {
      assert !Blank(v.s);
    }
  }

  /**
   * A value Joi's `date()` reads is read the same by the store, except a numeral
   * string inside the year range.
   */
  lemma JoiIsCast(v: Value, lib: Library)
    requires JoiTime(v, lib).Some? && !SpelledAsYear(v)
    ensures CastTime(v, lib) == JoiTime(v, lib)
  {
    if v.Str? {
      assert !Blank(v.s);
    }
  }

  /**
   * A number passes `date().iso()` as the date its decimal text spells (2021 is
   * the year 2021), while Joi's plain `date()` and the store read it as that many
   * milliseconds.
   */
  lemma NumberIsoIsNotCast(n: int, lib: Library)
    requires lib.isIsoDate(Decimal(n)) && lib.parseDate(Decimal(n)).Some?
    ensures IsoTime(Num(n), lib, true) == lib.parseDate(Decimal(n))
    ensures CastTime(Num(n), lib) == JoiTime(Num(n), lib) == Some(n)
    ensures CastTime(Num(n), lib) != IsoTime(Num(n), lib, true) <==> lib.parseDate(Decimal(n)).value != n
  {
  }

  /**
   * A numeral string inside the year range is milliseconds to Joi's `date()` and
   * a date string to the store: `"2021"` is 2021 ms to a `Joi.ref`, the year 2021
   * once saved.
   */
  lemma YearNumeralReadTwice(s: string, lib: Library)
    requires SpelledAsYear(Str(s))
    ensures JoiTime(Str(s), lib) == Some(DecimalTime(s))
    ensures CastTime(Str(s), lib) == lib.parseDate(s)
  {
    var k := FirstDot(Unsigned(s));
    assert Unsigned(s)[k - 1] == Unsigned(s)[..k][k - 1];
    assert !IsSpace(Unsigned(s)[k - 1]);
  }
}
