/**
 * Decimal text of integers: Rust's `i64::from_str` and the `to_string` that prints it back,
 * and JavaScript's BigInt `toString`.
 */
module Decimal {
  import opened Wrappers

  const I64_MIN: int := -0x8000_0000_0000_0000
  const I64_MAX: int := 0x7fff_ffff_ffff_ffff

  predicate IsI64(n: int) {
    I64_MIN <= n <= I64_MAX
  }

  predicate IsDigit(c: char) {
    '0' <= c <= '9'
  }

  predicate IsDigits(s: string) {
    forall i | 0 <= i < |s| :: IsDigit(s[i])
  }

  function Value(s: string): nat
    requires IsDigits(s)
  {
    if s == "" then 0 else 10 * Value(s[..|s| - 1]) + (s[|s| - 1] as int - '0' as int)
  }

  function NatText(n: nat): (s: string)
    ensures s != "" && IsDigits(s)
  {
    var last := [('0' as int + n % 10) as char];
    if n < 10 then last else NatText(n / 10) + last
  }

  function IntText(n: int): string {
    if n < 0 then "-" + NatText(-n) else NatText(n)
  }

  /** Rust's signed parser: an optional sign, then at least one digit, then the range check. */
  function ParseI64(s: string): Option<int> {
    var signed := s != "" && (s[0] == '-' || s[0] == '+');
    var digits := if signed then s[1..] else s;
    if digits == "" || !IsDigits(digits) then None
    else
      var n: int := if signed && s[0] == '-' then 0 - Value(digits) else Value(digits);
      if IsI64(n) then Some(n) else None
  }

  const ALPHABET := "0123456789"

  lemma DigitsAreTen(c: char)
    ensures IsDigit(c) <==> c in ALPHABET
  {
    if IsDigit(c) {
      assert ALPHABET[c as int - '0' as int] == c;
    }
  }

  /** The last digit printed is the remainder by ten, and the rest is what is printed of the quotient. */
  lemma PrintsDigits(n: nat)
    ensures NatText(n) == (if n < 10 then "" else NatText(n / 10)) + [ALPHABET[n % 10]]
  {
    InAlphabet(n % 10);
  }

  /** A digit read adds its place in the alphabet to ten times the rest. */
  lemma ReadsDigits(digits: string, v: nat)
    requires IsDigits(digits) && v < 10
    ensures IsDigit(ALPHABET[v]) && Value(digits + [ALPHABET[v]]) == 10 * Value(digits) + v
  {
    InAlphabet(v);
    OneDigitMore(digits, ALPHABET[v]);
  }

  lemma InAlphabet(v: nat)
    requires v < 10
    ensures ALPHABET[v] == ('0' as int + v) as char && IsDigit(ALPHABET[v])
  {
  }

  lemma OneDigitMore(digits: string, c: char)
    requires IsDigits(digits) && IsDigit(c)
    ensures Value(digits + [c]) == 10 * Value(digits) + (c as int - '0' as int)
  {
    assert (digits + [c])[..|digits|] == digits;
  }

  lemma {:induction false} NatTextValue(n: nat)
    ensures Value(NatText(n)) == n
  {
    var s := NatText(n);
    if n < 10 {
      assert s[..|s| - 1] == "";
    } else {
      NatTextValue(n / 10);
      assert s[..|s| - 1] == NatText(n / 10);
    }
  }

  /** The printed text has no superfluous leading zero. */
  lemma {:induction false} NatTextCanonical(n: nat)
    ensures NatText(n)[0] == '0' ==> n == 0
    ensures n == 0 ==> NatText(n) == "0"
  {
    if n < 10 {
    } else {
      NatTextCanonical(n / 10);
    }
  }

  /** Printing then parsing gives the integer back, and parsing never leaves the i64 range. */
  lemma ParseOfText(n: int)
    ensures ParseI64(IntText(n)) ==
            if -9_223_372_036_854_775_808 <= n <= 9_223_372_036_854_775_807 then Some(n) else None
  {
    var magnitude: nat := if n < 0 then -n else n;
    var s := IntText(n);
    NatTextValue(magnitude);
    if n < 0 {
      assert s[0] == '-' && s[1..] == NatText(magnitude);
    } else {
      assert IsDigit(s[0]);
    }
  }

  /** What parses: an optional sign and at least one digit, of a number in range. */
  lemma OnlyNumbersParse(s: string)
    ensures ParseI64(s).Some? <==>
            exists sign, digits ::
              && sign in {"", "+", "-"} && digits != "" && IsDigits(digits) && s == sign + digits
              && IsI64(if sign == "-" then 0 - Value(digits) else Value(digits))
  {
    if ParseI64(s).Some? {
      if s[0] == '+' || s[0] == '-' {
        assert s == [s[0]] + s[1..];
      } else {
        assert s == "" + s;
      }
    }
    if sign, digits :|
        && sign in {"", "+", "-"} && digits != "" && IsDigits(digits) && s == sign + digits
        && IsI64(if sign == "-" then 0 - Value(digits) else Value(digits)) {
      if sign == "" {
        assert s == digits && IsDigit(s[0]);
      } else {
        assert s[1..] == digits && s[0] == sign[0];
      }
    }
  }

  lemma {:induction false} LeadingZero(digits: string)
    requires IsDigits(digits)
    ensures Value("0" + digits) == Value(digits)
  {
    var s := "0" + digits;
    if digits == "" {
      assert s[..0] == "";
    } else {
      LeadingZero(digits[..|digits| - 1]);
      assert s[..|s| - 1] == "0" + digits[..|digits| - 1];
    }
  }

  lemma DigitsAlone(digits: string)
    requires digits != "" && IsDigits(digits)
    ensures ParseI64(digits) == if Value(digits) <= I64_MAX then Some(Value(digits)) else None
  {
    assert IsDigit(digits[0]);
  }

  lemma SignedForms(digits: string)
    requires digits != "" && IsDigits(digits)
    ensures ParseI64("+" + digits) == ParseI64(digits)
    ensures ParseI64("-" + digits) == if IsI64(0 - Value(digits)) then Some(0 - Value(digits)) else None
  {
    DigitsAlone(digits);
    var plus, minus := "+" + digits, "-" + digits;
    assert plus[0] == '+' && plus[1..] == digits;
    assert minus[0] == '-' && minus[1..] == digits;
  }

  lemma ZeroPrefixed(digits: string)
    requires digits != "" && IsDigits(digits)
    ensures ParseI64("0" + digits) == ParseI64(digits)
  {
    LeadingZero(digits);
    DigitsAlone(digits);
    DigitsAlone("0" + digits);
  }

  lemma NatTextInjective(m: nat, n: nat)
    ensures NatText(m) == NatText(n) <==> m == n
  {
    NatTextValue(m);
    NatTextValue(n);
  }
}
