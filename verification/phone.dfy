/**
 * The phone-number check of backend/DTO/extensions/phone.js: `PHONE_HANDLER`, a
 * type test followed by the anchored regular expression
 *   ^\+(COUNTRY)(?:\W*\d){0,13}\d$
 * whose country-code group lists one- and two-digit dialling prefixes, and the
 * Joi extension that reports `'invalid'` when the handler refuses a value.
 */
module Phone {
  import opened Wrappers
  import opened Values

  /** `\d` in a JavaScript regular expression without the `u` flag. */
  predicate IsDigit(c: char) {
    '0' <= c <= '9'
  }

  /** `\w`: ASCII letters, digits and the underscore. */
  predicate IsWordChar(c: char) {
    IsDigit(c) || 'a' <= c <= 'z' || 'A' <= c <= 'Z' || c == '_'
  }

  /** `\W`. */
  predicate IsNonWord(c: char) {
    !IsWordChar(c)
  }

  predicate AllNonWord(w: string) {
    forall j :: 0 <= j < |w| ==> IsNonWord(w[j])
  }

  /**
   * The two-digit alternatives of the country-code group, as written:
   * (?:9[679]|8[035789]|6[789]|5[90]|42|3[578]|2[1-689]) followed by
   * 9[0-58]|8[1246]|6[0-6]|5[1-8]|4[013-9]|3[0-469]|2[70].
   */
  predicate TwoDigitCode(a: char, b: char) {
    || (a == '9' && b in "679")
    || (a == '8' && b in "035789")
    || (a == '6' && b in "789")
    || (a == '5' && b in "90")
    || (a == '4' && b == '2')
    || (a == '3' && b in "578")
    || (a == '2' && ('1' <= b <= '6' || b in "89"))
    || (a == '9' && ('0' <= b <= '5' || b == '8'))
    || (a == '8' && b in "1246")
    || (a == '6' && '0' <= b <= '6')
    || (a == '5' && '1' <= b <= '8')
    || (a == '4' && (b in "01" || '3' <= b <= '9'))
    || (a == '3' && ('0' <= b <= '4' || b in "69"))
    || (a == '2' && b in "70")
  }

  /** The one-digit alternatives `7|1`. */
  predicate OneDigitCode(a: char) {
    a == '7' || a == '1'
  }

  /**
   * `t` matches `(?:\W*\d){0,reps}\d` in full, read off the pattern: either the
   * final digit alone, or one more group (a run of non-word characters and a
   * digit) followed by a match with one group fewer.
   */
  predicate MatchesTail(t: string, reps: nat)
    decreases |t|
  {
    || (|t| == 1 && IsDigit(t[0]))
    || (reps > 0 && exists i :: 0 <= i < |t| && AllNonWord(t[..i]) && IsDigit(t[i]) && MatchesTail(t[i + 1..], reps - 1))
  }

  /** The whole pattern; the regex engine backtracks over every alternative. */
  predicate PhoneMatches(s: string) {
    && |s| >= 2
    && s[0] == '+'
    && (|| (OneDigitCode(s[1]) && MatchesTail(s[2..], 13))
        || (|s| >= 3 && TwoDigitCode(s[1], s[2]) && MatchesTail(s[3..], 13)))
  }

  /** `PHONE_HANDLER(phone)`: false for a non-string, otherwise whether the pattern matches. */
  predicate PhoneHandler(v: Value) {
    v.Str? && PhoneMatches(v.s)
  }

  /** The extension's `validate`: the `'invalid'` error exactly when the handler refuses. */
  function ExtensionValidate(v: Value): (error: Option<string>)
    ensures error.Some? <==> !PhoneHandler(v)
    ensures error.Some? ==> error.value == "invalid"
  {
    if !PhoneHandler(v) then Some("invalid") else None
  }

  // ---------------------------------------------------------------------------
  // An independent description of the accepted strings
  // ---------------------------------------------------------------------------

  function DigitCount(t: string): nat {
    if t == [] then 0 else (if IsDigit(t[0]) then 1 else 0) + DigitCount(t[1..])
  }

  /**
   * What the tail accepts, stated without the pattern: only digits and non-word
   * characters, a digit at the end, directly preceded by a digit unless it is the
   * only character, and at most `reps + 1` digits.
   */
  predicate TailShape(t: string, reps: nat) {
    && |t| >= 1
    && (forall j :: 0 <= j < |t| ==> IsDigit(t[j]) || IsNonWord(t[j]))
    && IsDigit(t[|t| - 1])
    && (|t| == 1 || IsDigit(t[|t| - 2]))
    && DigitCount(t) <= reps + 1
  }

  /** The accepted strings, stated without the pattern. */
  predicate PhoneShape(s: string) {
    && |s| >= 2
    && s[0] == '+'
    && (|| (s[1] in "17" && TailShape(s[2..], 13))
        || (s[1] in "2345689" && |s| >= 3 && IsDigit(s[2]) && TailShape(s[3..], 13)))
  }

  /** The country-code list covers every prefix 2x..6x, 8x and 9x, and no other two-digit one. */
  lemma TwoDigitCodes(a: char, b: char)
    ensures TwoDigitCode(a, b) <==> a in "2345689" && IsDigit(b)
  {
  }

  lemma {:induction false} DigitCountAppendOne(t: string)
    requires |t| >= 1 && IsDigit(t[|t| - 1])
    ensures DigitCount(t) >= 1
  {
    if |t| > 1 {
      assert t[1..][|t[1..]| - 1] == t[|t| - 1];
      DigitCountAppendOne(t[1..]);
    }
  }

  /** A run of non-word characters holds no digit. */
  lemma {:induction false} DigitCountAfterRun(t: string, i: nat)
    requires i < |t| && AllNonWord(t[..i]) && IsDigit(t[i])
    ensures DigitCount(t) == 1 + DigitCount(t[i + 1..])
  {
    if i > 0 {
      assert IsNonWord(t[..i][0]);
      assert t[1..][..i - 1] == t[1..i];
      assert t[1..][i - 1 + 1..] == t[i + 1..];
      DigitCountAfterRun(t[1..], i - 1);
    }
  }

  /** The first digit of a string that has one. */
  function FirstDigit(t: string): (i: nat)
    requires exists j :: 0 <= j < |t| && IsDigit(t[j])
    ensures i < |t| && IsDigit(t[i])
    ensures forall j :: 0 <= j < i ==> !IsDigit(t[j])
  {
    if IsDigit(t[0]) then 0
    else
      var j :| 0 <= j < |t| && IsDigit(t[j]);
      assert IsDigit(t[1..][j - 1]);
      1 + FirstDigit(t[1..])
  }

  /** One more group in front of a tail of shape `TailShape` keeps the shape. */
  lemma ShapeExtend(t: string, i: nat, reps: nat)
    requires reps > 0 && i < |t| && AllNonWord(t[..i]) && IsDigit(t[i])
    requires TailShape(t[i + 1..], reps - 1)
    ensures TailShape(t, reps)
  {
    var rest := t[i + 1..];
    DigitCountAfterRun(t, i);
    forall j | 0 <= j < |t| ensures IsDigit(t[j]) || IsNonWord(t[j]) {
      if j < i {
        assert t[..i][j] == t[j];
      } else if j > i {
        assert t[j] == rest[j - i - 1];
      }
    }
    assert t[|t| - 1] == rest[|rest| - 1];
    if |rest| > 1 {
      assert t[|t| - 2] == rest[|rest| - 2];
    }
  }

  /** Every string the tail pattern accepts has the shape `TailShape`. */
  lemma {:induction false} TailSound(t: string, reps: nat)
    requires MatchesTail(t, reps)
    ensures TailShape(t, reps)
    decreases |t|
  {
    if !(|t| == 1 && IsDigit(t[0])) {
      var i :| 0 <= i < |t| && AllNonWord(t[..i]) && IsDigit(t[i]) && MatchesTail(t[i + 1..], reps - 1);
      TailSound(t[i + 1..], reps - 1);
      ShapeExtend(t, i, reps);
    }
  }

  /** Every string of the shape `TailShape` is accepted by the tail pattern. */
  lemma {:induction false} TailComplete(t: string, reps: nat)
    requires TailShape(t, reps)
    ensures MatchesTail(t, reps)
    decreases |t|
  {
    if |t| > 1 {
      assert IsDigit(t[|t| - 2]);
      var i := FirstDigit(t);
      var rest := t[i + 1..];
      assert i <= |t| - 2;
      forall j | 0 <= j < i ensures IsNonWord(t[..i][j]) {
        assert t[..i][j] == t[j];
        assert !IsDigit(t[j]);
      }
      DigitCountAfterRun(t, i);
      assert rest[|rest| - 1] == t[|t| - 1];
      DigitCountAppendOne(rest);
      if |rest| > 1 {
        assert rest[|rest| - 2] == t[|t| - 2];
      }
      forall j | 0 <= j < |rest| ensures IsDigit(rest[j]) || IsNonWord(rest[j]) {
        assert rest[j] == t[i + 1 + j];
      }
      TailComplete(rest, reps - 1);
    }
  }

  /** The tail pattern accepts exactly the strings of `TailShape`. */
  lemma TailCharacterization(t: string, reps: nat)
    ensures MatchesTail(t, reps) <==> TailShape(t, reps)
  {
    if MatchesTail(t, reps) {
      TailSound(t, reps);
    }
    if TailShape(t, reps) {
      TailComplete(t, reps);
    }
  }

  /** `PHONE_HANDLER` accepts a string exactly when it has the shape `PhoneShape`. */
  lemma PhoneCharacterization(s: string)
    ensures PhoneHandler(Str(s)) <==> PhoneShape(s)
  {
    if |s| >= 2 {
      TailCharacterization(s[2..], 13);
      if |s| >= 3 {
        TwoDigitCodes(s[1], s[2]);
        TailCharacterization(s[3..], 13);
      }
    }
  }

  /**
   * What an accepted string looks like: a `'+'`, a country code whose first digit is
   * not 0, then only digits and non-word characters (no ASCII letter, no underscore), and
   * a final digit.
   */
  lemma AcceptedPhone(s: string)
    requires PhoneHandler(Str(s))
    ensures |s| >= 3 && s[0] == '+' && '1' <= s[1] <= '9'
    ensures forall j :: 1 <= j < |s| ==> IsDigit(s[j]) || IsNonWord(s[j])
    ensures IsDigit(s[|s| - 1]) && IsDigit(s[|s| - 2])
  {
    PhoneCharacterization(s);
    var k := if s[1] in "17" then 2 else 3;
    var t := s[k..];
    forall j | 1 <= j < |s| ensures IsDigit(s[j]) || IsNonWord(s[j]) {
      if j >= k {
        assert s[j] == t[j - k];
      }
    }
    assert s[|s| - 1] == t[|t| - 1];
    if |t| > 1 {
      assert s[|s| - 2] == t[|t| - 2];
    }
  }
}
