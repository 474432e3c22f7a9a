/**
 * backend/helpers/router.js: the `PARAMS.ID` route pattern and the two query
 * handlers `QUERIES.ID_HANDLER` and `QUERIES.PAGE_HANDLER`, which answer a
 * number for a valid value, `null` for an invalid one and `undefined` for an
 * absent one.
 */
module Router {
  import opened Values

  // ---------------------------------------------------------------------------
  // PARAMS.ID: ':id([0-9a-fA-F]{24})'
  // ---------------------------------------------------------------------------

  predicate IsHexDigit(c: char) {
    '0' <= c <= '9' || 'a' <= c <= 'f' || 'A' <= c <= 'F'
  }

  /** `s` matches `[0-9a-fA-F]{k}` in full, read off the pattern one character class at a time. */
  predicate HexRun(s: string, k: nat)
    decreases k
  {
    if k == 0 then s == [] else |s| > 0 && IsHexDigit(s[0]) && HexRun(s[1..], k - 1)
  }

  /** The `:id` route parameter: the pattern `[0-9a-fA-F]{24}`. */
  predicate IdParam(s: string) {
    HexRun(s, 24)
  }

  /** A run of `k` hex characters is exactly a string of length `k` made of hex digits, in either case. */
  lemma {:induction false} HexRunShape(s: string, k: nat)
    ensures HexRun(s, k) <==> |s| == k && forall i :: 0 <= i < |s| ==> IsHexDigit(s[i])
    decreases k
  {
    if k > 0 && |s| > 0 {
      HexRunShape(s[1..], k - 1);
      if forall i :: 0 <= i < |s[1..]| ==> IsHexDigit(s[1..][i]) {
        if IsHexDigit(s[0]) {
          forall i | 0 <= i < |s| ensures IsHexDigit(s[i]) {
            if i > 0 {
              assert s[i] == s[1..][i - 1];
            }
          }
        }
      }
      if forall i :: 0 <= i < |s| ==> IsHexDigit(s[i]) {
        forall i | 0 <= i < |s[1..]| ensures IsHexDigit(s[1..][i]) {
          assert s[1..][i] == s[i + 1];
        }
      }
    }
  }

  /** The route accepts exactly the 24-character hex strings. */
  lemma IdParamShape(s: string)
    ensures IdParam(s) <==> |s| == 24 && forall i :: 0 <= i < |s| ==> IsHexDigit(s[i])
  {
    HexRunShape(s, 24);
  }

  // ---------------------------------------------------------------------------
  // Decimal strings: /^[1-9]\d{0,8}$/ and their values
  // ---------------------------------------------------------------------------

  /** A decimal numeral without a leading zero: `[1-9]\d*`. */
  predicate Numeral(s: string) {
    |s| >= 1 && '1' <= s[0] <= '9' && AllDigits(s)
  }

  /** The pattern `/^[1-9]\d{0,8}$/`: a numeral of one to nine digits. */
  predicate DecimalToken(s: string) {
    Numeral(s) && |s| <= 9
  }

  function Pow10(k: nat): nat {
    if k == 0 then 1 else 10 * Pow10(k - 1)
  }

  /** The numeral of a positive integer is a numeral, and it reads back as that integer. */
  lemma {:induction false} StringThenValue(n: nat)
    requires n >= 1
    ensures Numeral(Digits(n))
    ensures DecimalValue(Digits(n)) == n
  {
    var s := Digits(n);
    if n >= 10 {
      StringThenValue(n / 10);
      var p := Digits(n / 10);
      assert s[..|s| - 1] == p;
      assert s[0] == p[0];
    }
  }

  /** A numeral's value is at least 1 and below `10^|s|`. */
  lemma {:induction false} ValueBounds(s: string)
    requires Numeral(s)
    ensures 1 <= DecimalValue(s) < Pow10(|s|)
  {
    if |s| > 1 {
      var p := s[..|s| - 1];
      assert p[0] == s[0];
      ValueBounds(p);
    }
  }

  /** A numeral is the decimal string of its value. */
  lemma {:induction false} ValueThenString(s: string)
    requires Numeral(s)
    ensures DecimalValue(s) >= 1 && Digits(DecimalValue(s)) == s
  {
    ValueBounds(s);
    if |s| > 1 {
      var p := s[..|s| - 1];
      assert p[0] == s[0];
      ValueBounds(p);
      ValueThenString(p);
      var v := DecimalValue(s);
      assert v / 10 == DecimalValue(p) && v % 10 == s[|s| - 1] as int - '0' as int;
      assert s == p + [s[|s| - 1]];
    }
  }

  /** The numeral of `n` has at most `k` digits exactly when `n < 10^k`. */
  lemma {:induction false} StringLength(n: nat, k: nat)
    requires n >= 1
    ensures |Digits(n)| <= k <==> n < Pow10(k)
    decreases n
  {
    if n >= 10 && k >= 1 {
      StringLength(n / 10, k - 1);
    } else if n >= 10 {
      assert Pow10(0) == 1;
    } else if k >= 1 {
      PowAtLeastTen(k);
    }
  }

  lemma {:induction false} PowAtLeastTen(k: nat)
    requires k >= 1
    ensures Pow10(k) >= 10
  {
    if k > 1 {
      PowAtLeastTen(k - 1);
    }
  }

  lemma NineDigits()
    ensures Pow10(9) == 1000000000
  {
  }

  // ---------------------------------------------------------------------------
  // The handlers
  // ---------------------------------------------------------------------------

  /** A query value as Express hands it over: absent, a string, or an already parsed integer. */
  datatype Query = Undefined | Text(s: string) | Number(n: int)

  /** A handler's answer: `undefined`, `null`, or a number. */
  datatype Parsed = Undef | Null | Int(value: int)

  /**
   * The shared parse: match the pattern, then `parseInt`, and `|| null` turns a
   * falsy outcome (`false` for no match, `0`) into `null`. `Number.isInteger(+t)`
   * holds for every string the pattern admits.
   */
  function Parse(t: string): (r: Parsed)
    ensures r.Int? <==> DecimalToken(t)
    ensures r.Int? ==> r.value == DecimalValue(t) && 1 <= r.value <= 999999999
    ensures !r.Int? ==> r == Parsed.Null
  {
    TokenRange(t);
    var parsed := if DecimalToken(t) then DecimalValue(t) else 0;
    if parsed != 0 then Int(parsed) else Parsed.Null
  }

  /** The value of a string the pattern admits lies in [1, 999999999]. */
  lemma TokenRange(t: string)
    ensures DecimalToken(t) ==> 1 <= DecimalValue(t) <= 999999999
  {
    if DecimalToken(t) {
      ValueBounds(t);
      NineDigits();
      PowMonotone(|t|, 9);
    }
  }

  lemma {:induction false} PowMonotone(j: nat, k: nat)
    requires j <= k
    ensures Pow10(j) <= Pow10(k)
    decreases k
  {
    if j < k {
      PowMonotone(j, k - 1);
    }
  }

  /** `ID_HANDLER(id)`. */
  function IdHandler(q: Query): Parsed {
    match q
    case Undefined => Undef
    case Text(s) => Parse(s)
    case Number(n) => Parse(Decimal(n))
  }

  /** `PAGE_HANDLER(page)`: a number in range passes as it is; out of range it falls out of the switch. */
  function PageHandler(q: Query): Parsed {
    match q
    case Undefined => Undef
    case Number(n) => if n > 0 && n < 247483647 then Int(n) else Undef
    case Text(s) => Parse(s)
  }

  /** A string id parses exactly when it is a numeral of one to nine digits, to its value. */
  lemma IdHandlerText(s: string)
    ensures IdHandler(Text(s)) == if DecimalToken(s) then Int(DecimalValue(s)) else Parsed.Null
  {
  }

  /** A numeric id passes unchanged exactly when it lies in [1, 999999999]; otherwise the answer is `null`. */
  lemma IdHandlerNumber(n: int)
    ensures IdHandler(Number(n)) == if 1 <= n <= 999999999 then Int(n) else Parsed.Null
  {
    if n >= 1 {
      StringThenValue(n);
      StringLength(n, 9);
      NineDigits();
    } else if n < 0 {
      assert Decimal(n)[0] == '-';
    }
  }

  /** What the page handler answers, branch by branch. */
  lemma PageHandlerCases(q: Query)
    ensures q.Undefined? ==> PageHandler(q) == Undef
    ensures q.Number? ==> PageHandler(q) == if 1 <= q.n <= 247483646 then Int(q.n) else Undef
    ensures q.Text? ==> PageHandler(q) == IdHandler(q)
    ensures PageHandler(q).Int? ==> PageHandler(q).value >= 1
  {
  }

  /** Neither handler answers 0; a zero is `null` for a string and `undefined` for a number page. */
  lemma NeverZero(q: Query)
    ensures IdHandler(q) != Int(0) && PageHandler(q) != Int(0)
    ensures IdHandler(Text("0")) == Parsed.Null && PageHandler(Text("0")) == Parsed.Null
    ensures IdHandler(Number(0)) == Parsed.Null && PageHandler(Number(0)) == Undef
  {
    IdHandlerNumber(0);
  }

  /** The two page branches disagree above 247483646: the page 300000000 passes as a string but not as a number. */
  lemma PageBranchesDisagree()
    ensures PageHandler(Text("300000000")) == Int(300000000)
    ensures PageHandler(Number(300000000)) == Undef
  {
    var n := 300000000;
    StringThenValue(n);
    StringLength(n, 9);
    NineDigits();
    assert Digits(n) == "300000000";
  }
}
