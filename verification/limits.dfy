/**
 * The shared length bounds of shared/limits.js: a `limit(MIN, MAX)` record per
 * bounded text field of a User and of an Event.
 */
module Limits {

  /** What `limit(MIN, MAX)` builds: an inclusive range of string lengths. */
  datatype Limit = Limit(min: nat, max: nat)

  const FIRST_NAME := Limit(1, 64)
  const LAST_NAME := Limit(1, 64)
  const EMAIL := Limit(3, 64)
  const PHONE_NUMBER := Limit(3, 32)
  const TITLE := Limit(4, 64)
  const DESCRIPTION := Limit(16, 128)

  /** Every entry of the frozen table, USER entries first. */
  const ALL: seq<Limit> := [FIRST_NAME, LAST_NAME, EMAIL, PHONE_NUMBER, TITLE, DESCRIPTION]

  /**
   * A JavaScript string's `length`: its UTF-16 code units, so a character above
   * U+FFFF (a surrogate pair) counts twice.
   */
  function Utf16Length(s: string): nat
    decreases |s|
  {
    if s == [] then 0 else Utf16Length(s[..|s| - 1]) + (if s[|s| - 1] as int >= 0x1_0000 then 2 else 1)
  }

  /** The UTF-16 length lies between the number of characters and twice that, and equals it exactly when no character needs a surrogate pair. */
  lemma {:induction false} Utf16Bounds(s: string)
    ensures |s| <= Utf16Length(s) <= 2 * |s|
    ensures Utf16Length(s) == |s| <==> forall i :: 0 <= i < |s| ==> (s[i] as int) < 0x1_0000
    decreases |s|
  {
    if s != [] {
      var p := s[..|s| - 1];
      Utf16Bounds(p);
      if forall i :: 0 <= i < |s| ==> (s[i] as int) < 0x1_0000 {
        assert forall i :: 0 <= i < |p| ==> p[i] == s[i];
      }
      if Utf16Length(s) == |s| {
        forall i | 0 <= i < |s| ensures (s[i] as int) < 0x1_0000 {
          if i < |p| {
            assert p[i] == s[i];
          }
        }
      }
    }
  }

  /** A string made only of characters above U+FFFF has twice as many code units as characters. */
  lemma {:induction false} AstralLength(s: string)
    requires forall i :: 0 <= i < |s| ==> (s[i] as int) >= 0x1_0000
    ensures Utf16Length(s) == 2 * |s|
    decreases |s|
  {
    if s != [] {
      var p := s[..|s| - 1];
      assert forall i :: 0 <= i < |p| ==> p[i] == s[i];
      AstralLength(p);
    }
  }

  /** A string satisfies a bound when its JavaScript length lies in the closed range. */
  predicate Within(s: string, l: Limit) {
    l.min <= Utf16Length(s) <= l.max
  }

  /** Every entry of the table is a non-empty range that excludes the empty string. */
  lemma TableWellFormed()
    ensures forall i :: 0 <= i < |ALL| ==> 1 <= ALL[i].min <= ALL[i].max
    ensures forall i :: 0 <= i < |ALL| ==> !Within("", ALL[i])
  {
  }

  /** Thirty-three characters above U+FFFF are 66 code units, too long for a first name of at most 64. */
  lemma AstralNameTooLong(s: string)
    requires |s| == 33 && forall i :: 0 <= i < |s| ==> (s[i] as int) >= 0x1_0000
    ensures Utf16Length(s) == 66 && !Within(s, FIRST_NAME)
  {
    AstralLength(s);
  }
}
