/** Lower-case hexadecimal text: values, fixed-width printing and the trimming of leading zeros. */
module Hex {
  const TWO_128: nat := 0x1_0000_0000_0000_0000_0000_0000_0000_0000

  predicate IsDigit(c: char) {
    '0' <= c <= '9' || 'a' <= c <= 'f'
  }

  function DigitValue(c: char): (v: nat)
    requires IsDigit(c)
    ensures v < 16
  {
    if c <= '9' then c as int - '0' as int else c as int - 'a' as int + 10
  }

  function Digit(v: nat): (c: char)
    requires v < 16
    ensures IsDigit(c) && DigitValue(c) == v
  {
    if v < 10 then ('0' as int + v) as char else ('a' as int + v - 10) as char
  }

  const ALPHABET := "0123456789abcdef"

  /** The sixteen digits in the order of their values. */
  lemma DigitsByValue(v: nat)
    requires v < 16
    ensures Digit(v) == ALPHABET[v] && DigitValue(ALPHABET[v]) == v
  {
  }

  lemma DigitsAreSixteen(c: char)
    ensures IsDigit(c) <==> c in ALPHABET
  {
    if IsDigit(c) {
      DigitsByValue(DigitValue(c));
      DigitOfValue(c);
    }
  }

  /** A digit further on in the character set is a greater digit. */
  lemma DigitsAscend(c: char, d: char)
    requires IsDigit(c) && IsDigit(d)
    ensures c < d <==> DigitValue(c) < DigitValue(d)
  {
  }

  lemma DigitOfValue(c: char)
    requires IsDigit(c)
    ensures Digit(DigitValue(c)) == c
  {
  }

  predicate IsHex(s: string) {
    forall i | 0 <= i < |s| :: IsDigit(s[i])
  }

  function Value(s: string): nat
    requires IsHex(s)
  {
    if s == "" then 0 else 16 * Value(s[..|s| - 1]) + DigitValue(s[|s| - 1])
  }

  function Pow16(k: nat): (p: nat)
    ensures p > 0
  {
    if k == 0 then 1 else 16 * Pow16(k - 1)
  }

  /** The last `width` hexadecimal digits of n. */
  function Fixed(n: nat, width: nat): (s: string)
    ensures |s| == width && IsHex(s)
  {
    if width == 0 then "" else Fixed(n / 16, width - 1) + [Digit(n % 16)]
  }

  lemma {:induction false} ValueBound(s: string)
    requires IsHex(s)
    ensures Value(s) < Pow16(|s|)
  {
    if s == "" {
    } else {
      ValueBound(s[..|s| - 1]);
    }
  }

  lemma {:induction false} FixedValue(n: nat, width: nat)
    requires n < Pow16(width)
    ensures Value(Fixed(n, width)) == n
  {
    if width == 0 {
    } else {
      FixedValue(n / 16, width - 1);
      var s := Fixed(n, width);
      assert s[..width - 1] == Fixed(n / 16, width - 1);
    }
  }

  lemma {:induction false} FixedOfValue(s: string)
    requires IsHex(s)
    ensures Fixed(Value(s), |s|) == s
  {
    if s == "" {
    } else {
      var front, d := s[..|s| - 1], s[|s| - 1];
      FixedOfValue(front);
      DigitOfValue(d);
      var v := 16 * Value(front) + DigitValue(d);
      assert v / 16 == Value(front) && v % 16 == DigitValue(d);
      assert Fixed(v, |front| + 1) == front + [d];
      assert front + [d] == s;
    }
  }

  /** Texts of one width are equal when their values are. */
  lemma ValueInjective(s: string, t: string)
    requires IsHex(s) && IsHex(t) && |s| == |t|
    requires Value(s) == Value(t)
    ensures s == t
  {
    FixedOfValue(s);
    FixedOfValue(t);
  }

  lemma {:induction false} PowMonotone(a: nat, b: nat)
    requires a <= b
    ensures Pow16(a) <= Pow16(b)
  {
    if a == b {
    } else {
      PowMonotone(a, b - 1);
    }
  }

  lemma ValueOfOneMore(s: string, c: char)
    requires IsHex(s) && IsDigit(c)
    ensures Value(s + [c]) == 16 * Value(s) + DigitValue(c)
  {
    assert (s + [c])[..|s|] == s;
  }

  lemma Regroup(v: nat, p: nat)
    ensures v * (16 * p) == 16 * (v * p)
  {
  }

  lemma {:induction false} ValueOfConcat(s: string, t: string)
    requires IsHex(s) && IsHex(t)
    ensures Value(s + t) == Value(s) * Pow16(|t|) + Value(t)
  {
    if t == "" {
      assert s + t == s;
    } else {
      var front, d := t[..|t| - 1], t[|t| - 1];
      ValueOfConcat(s, front);
      ValueOfOneMore(s + front, d);
      ValueOfOneMore(front, d);
      assert s + t == s + front + [d] && t == front + [d];
      Regroup(Value(s), Pow16(|front|));
    }
  }

  /** Lexicographic order: the texts differ, and at the first difference s has the lower character. */
  predicate Precedes(s: string, t: string)
    requires |s| == |t|
  {
    s != [] && (s[0] < t[0] || (s[0] == t[0] && Precedes(s[1..], t[1..])))
  }

  lemma ValueOfOne(c: char)
    requires IsDigit(c)
    ensures IsHex([c]) && Value([c]) == DigitValue(c)
  {
    assert [c][..0] == "";
  }

  lemma ValueOfCons(c: char, s: string)
    requires IsDigit(c) && IsHex(s)
    ensures Value([c] + s) == DigitValue(c) * Pow16(|s|) + Value(s)
  {
    ValueOfOne(c);
    ValueOfConcat([c], s);
  }

  lemma ValueByHead(s: string)
    requires IsHex(s) && s != ""
    ensures Value(s) == DigitValue(s[0]) * Pow16(|s| - 1) + Value(s[1..])
    ensures Value(s[1..]) < Pow16(|s| - 1)
  {
    var c, rest := s[0], s[1..];
    ValueOfCons(c, rest);
    ValueBound(rest);
    assert s == [c] + rest;
  }

  lemma HigherHead(a: nat, b: nat, x: nat, y: nat, p: nat)
    requires a < b && x < p
    ensures a * p + x < b * p + y
  {
    assert b * p == a * p + (b - a) * p;
    ScaleByPositive(b - a, p);
  }

  /** Among texts of one width the smaller number has the lexicographically smaller text. */
  lemma {:induction false} OrderedByValue(s: string, t: string)
    requires IsHex(s) && IsHex(t) && |s| == |t|
    ensures Value(s) < Value(t) <==> Precedes(s, t)
  {
    if s == "" {
    } else {
      ValueByHead(s);
      ValueByHead(t);
      DigitsAscend(s[0], t[0]);
      var a, b, p := DigitValue(s[0]), DigitValue(t[0]), Pow16(|s| - 1);
      if s[0] < t[0] {
        HigherHead(a, b, Value(s[1..]), Value(t[1..]), p);
      } else if t[0] < s[0] {
        HigherHead(b, a, Value(t[1..]), Value(s[1..]), p);
      } else {
        OrderedByValue(s[1..], t[1..]);
      }
    }
  }

  function TrimZeros(s: string): (t: string)
    ensures |t| <= |s| && t == s[|s| - |t|..]
    ensures t != "" ==> t[0] != '0'
  {
    if s != "" && s[0] == '0' then TrimZeros(s[1..]) else s
  }

  lemma LeadingZero(s: string)
    requires IsHex(s)
    ensures IsHex("0" + s) && Value("0" + s) == Value(s)
  {
    ValueOfConcat("0", s);
    ValueOfOneMore("", '0');
    assert "" + ['0'] == "0";
  }

  lemma {:induction false} TrimKeepsValue(s: string)
    requires IsHex(s)
    ensures IsHex(TrimZeros(s)) && Value(TrimZeros(s)) == Value(s)
  {
    if s == "" || s[0] != '0' {
    } else {
      TrimKeepsValue(s[1..]);
      LeadingZero(s[1..]);
      assert s == "0" + s[1..];
    }
  }

  /** A text with no leading zero is at least the power its first digit stands for. */
  lemma LeadingDigit(t: string)
    requires IsHex(t) && t != "" && t[0] != '0'
    ensures Value(t) >= Pow16(|t| - 1)
  {
    ValueByHead(t);
    ScaleByPositive(DigitValue(t[0]), Pow16(|t| - 1));
  }

  lemma ScaleByPositive(v: nat, p: nat)
    requires v >= 1
    ensures v * p >= p
  {
  }

  lemma ShorterIsSmaller(t: string, u: string)
    requires IsHex(t) && IsHex(u) && |t| < |u| && u[0] != '0'
    ensures Value(t) < Value(u)
  {
    LeadingDigit(u);
    ValueBound(t);
    PowMonotone(|t|, |u| - 1);
  }

  /** No digit text of the same value is shorter than the trimmed one. */
  lemma TrimIsShortest(s: string, t: string)
    requires IsHex(s) && IsHex(t) && Value(s) == Value(t)
    ensures |TrimZeros(s)| <= |t|
  {
    TrimKeepsValue(s);
    if |t| < |TrimZeros(s)| {
      ShorterIsSmaller(t, TrimZeros(s));
    }
  }

  /** The trimmed text depends on the value alone. */
  lemma TrimIsCanonical(s: string, t: string)
    requires IsHex(s) && IsHex(t)
    ensures Value(s) == Value(t) <==> TrimZeros(s) == TrimZeros(t)
  {
    TrimKeepsValue(s);
    TrimKeepsValue(t);
    if Value(s) == Value(t) {
      TrimIsShortest(s, TrimZeros(t));
      TrimIsShortest(t, TrimZeros(s));
      ValueInjective(TrimZeros(s), TrimZeros(t));
    }
  }
}
