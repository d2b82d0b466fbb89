/**
 * The AssertionMade branch of the optimistic-oracle script: a variable-length array of field
 * elements is cut into a claim and nine trailing fields.
 */
module Assertion {
  import opened Wrappers
  import Hex
  import Decimal

  const WORD: nat := 64
  const MAX_DATE_MS: nat := 8_640_000_000_000_000

  /** A field element as the stream renders it: `0x` and 64 hexadecimal digits. */
  predicate IsFelt(s: string) {
    |s| == WORD + 2 && s[0] == '0' && s[1] == 'x' && Hex.IsHex(s[2..])
  }

  type Felt = s: string | IsFelt(s) witness "0x" + Hex.Fixed(0, WORD)

  function Digits(f: Felt): (d: string)
    ensures |d| == WORD && Hex.IsHex(d)
  {
    f[2..]
  }

  function FeltOf(n: nat): Felt {
    "0x" + Hex.Fixed(n, WORD)
  }

  /** `BigInt(f)`, and also `parseInt(f, 16)`. */
  function FeltValue(f: Felt): nat {
    Hex.Value(Digits(f))
  }

  // -------------------------------------------------------------------------
  // The script's helpers
  // -------------------------------------------------------------------------

  function TrimLeadingZeros(s: string): string {
    if "0x" <= s then "0x" + Hex.TrimZeros(s[2..]) else Hex.TrimZeros(s)
  }

  function CombineU256(low: nat, high: nat): nat {
    high * Hex.TWO_128 + low
  }

  function StripPrefix(s: string): string {
    if "0x" <= s then s[2..] else s
  }

  function ConcatenateHexStrings(parts: seq<string>): string {
    if parts == [] then "" else StripPrefix(parts[0]) + ConcatenateHexStrings(parts[1..])
  }

  /** JavaScript's `slice`: bounds past the end are clamped. */
  function Slice<T>(s: seq<T>, from: nat, to: nat): seq<T> {
    var hi := if to < |s| then to else |s|;
    if from < hi then s[from..hi] else []
  }

  datatype Decoded = Decoded(
    assertionId: string,
    domainId: string,
    claim: string,
    asserter: string,
    callbackRecipient: string,
    escalationManager: string,
    caller: string,
    expirationMs: nat,
    currency: string,
    bond: string,
    identifier: string)

  datatype JsError = TypeError | RangeError

  /** What the branch computes, with the exceptions JavaScript throws on data that is too short. */
  function Decode(data: seq<Felt>): Result<Decoded, JsError> {
    if |data| < 5 then Failure(TypeError)
    else
      var n := FeltValue(data[3]);
      var claim := Slice(data, 4, 4 + n + 1);
      var trimmed := Overwritten(claim, TrimLeadingZeros(claim[|claim| - 1]));
      Assemble(data, trimmed, Slice(data, 6 + n, |data|))
  }

  function Overwritten(claim: seq<string>, last: string): seq<string>
    requires claim != []
  {
    claim[|claim| - 1 := last]
  }

  function Assemble(data: seq<Felt>, claim: seq<string>, rest: seq<Felt>): Result<Decoded, JsError>
    requires |data| >= 3
  {
    if |rest| < 8 then Failure(TypeError)
    else if FeltValue(rest[4]) * 1000 > MAX_DATE_MS then Failure(RangeError)
    else if |rest| == 8 then Failure(TypeError)
    else
      Success(Decoded(
                data[0],
                Decimal.NatText(CombineU256(FeltValue(data[1]), FeltValue(data[2]))),
                ConcatenateHexStrings(claim),
                rest[0], rest[1], rest[2], rest[3],
                FeltValue(rest[4]) * 1000,
                rest[5],
                Decimal.NatText(CombineU256(FeltValue(rest[6]), FeltValue(rest[7]))),
                TrimLeadingZeros(rest[8])))
  }

  lemma DecodeByParts(data: seq<Felt>, claim: seq<Felt>, rest: seq<Felt>)
    requires |data| >= 5
    requires Slice(data, 4, 4 + FeltValue(data[3]) + 1) == claim != []
    requires Slice(data, 6 + FeltValue(data[3]), |data|) == rest
    ensures Decode(data) == Assemble(data, Overwritten(claim, TrimLeadingZeros(claim[|claim| - 1])), rest)
  {
  }

  /** The branch itself: the last claim element is overwritten in place. */
  method DecodeAssertionMade(data: seq<Felt>) returns (r: Result<Decoded, JsError>)
    ensures r == Decode(data)
  {
    if |data| < 4 {
      return Failure(TypeError);  // parseInt(undefined) is NaN, the claim slice is empty
    }
    var claimLength := FeltValue(data[3]);
    var slice := Slice(data, 4, 4 + claimLength + 1);
    var claimData := new string[|slice|](i requires 0 <= i < |slice| => slice[i]);
    var remainingData := Slice(data, 6 + claimLength, |data|);
    if claimData.Length == 0 {
      return Failure(TypeError);
    }
    var last := TrimLeadingZeros(claimData[claimData.Length - 1]);
    claimData[claimData.Length - 1] := last;
    assert claimData[..] == Overwritten(slice, last);
    DecodeByParts(data, slice, remainingData);
    r := Assemble(data, claimData[..], remainingData);
  }

  // -------------------------------------------------------------------------
  // Round trip
  // -------------------------------------------------------------------------

  /** The event as the contract emits it: a Cairo byte array between the domain and nine fields. */
  datatype Event = Event(
    assertionId: Felt,
    domainLow: Felt,
    domainHigh: Felt,
    words: seq<Felt>,
    pending: Felt,
    pendingLength: Felt,
    trailing: seq<Felt>)

  predicate WellFormed(e: Event) {
    |e.words| < Hex.Pow16(WORD) && |e.trailing| >= 9
  }

  function Layout(e: Event): seq<Felt> {
    [e.assertionId, e.domainLow, e.domainHigh, FeltOf(|e.words|)]
    + e.words + [e.pending, e.pendingLength] + e.trailing
  }

  /** Every word's digits, in order. */
  function Joined(words: seq<Felt>): string {
    if words == [] then "" else Digits(words[0]) + Joined(words[1..])
  }

  /** The stored claim: every word's digits, then the pending word without its leading zeros. */
  function ClaimText(words: seq<Felt>, pending: Felt): string {
    Joined(words) + Hex.TrimZeros(Digits(pending))
  }

  lemma StrippedWords(f: Felt)
    ensures StripPrefix(f) == Digits(f)
    ensures StripPrefix(TrimLeadingZeros(f)) == Hex.TrimZeros(Digits(f))
  {
    assert "0x" <= f;
    var trimmed := Hex.TrimZeros(Digits(f));
    assert ("0x" + trimmed)[2..] == trimmed;
  }

  lemma ConcatenationStep(first: string, rest: seq<string>)
    ensures ConcatenateHexStrings([first] + rest) == StripPrefix(first) + ConcatenateHexStrings(rest)
  {
    assert ([first] + rest)[1..] == rest;
  }

  lemma Associative(a: string, b: string, c: string)
    ensures a + b + c == a + (b + c)
  {
  }

  lemma FirstOf<T>(s: seq<T>, last: T)
    requires s != []
    ensures s + [last] == [s[0]] + (s[1..] + [last])
  {
  }

  lemma {:induction false} ConcatenationOfWords(words: seq<Felt>, last: string)
    ensures ConcatenateHexStrings(words + [last]) == Joined(words) + StripPrefix(last)
  {
    var texts: seq<string> := words;
    if words == [] {
      ConcatenationStep(last, []);
      assert texts + [last] == [last] + [];
    } else {
      FirstOf(texts, last);
      ConcatenationStep(words[0], texts[1..] + [last]);
      ConcatenationOfWords(words[1..], last);
      StrippedWords(words[0]);
      Associative(Digits(words[0]), Joined(words[1..]), StripPrefix(last));
    }
  }

  lemma ConcatenationIsClaimText(words: seq<Felt>, pending: Felt)
    ensures ConcatenateHexStrings(words + [TrimLeadingZeros(pending)]) == ClaimText(words, pending)
  {
    ConcatenationOfWords(words, TrimLeadingZeros(pending));
    StrippedWords(pending);
  }

  /** The count word gives the claim's length, and no slice reaches past the end. */
  lemma LayoutParts(e: Event)
    requires WellFormed(e)
    ensures FeltValue(Layout(e)[3]) == |e.words|
    ensures 4 + |e.words| + 1 <= |Layout(e)| && 6 + |e.words| + 9 <= |Layout(e)|
    ensures Slice(Layout(e), 4, 4 + |e.words| + 1) == e.words + [e.pending]
    ensures Slice(Layout(e), 6 + |e.words|, |Layout(e)|) == e.trailing
  {
    var data, n := Layout(e), |e.words|;
    assert FeltValue(data[3]) == n by {
      Hex.FixedValue(n, WORD);
      assert Digits(FeltOf(n)) == Hex.Fixed(n, WORD);
    }
    assert data[4..4 + n + 1] == e.words + [e.pending];
    assert data[6 + n..] == e.trailing;
  }

  lemma DecodeOfLayout(e: Event)
    requires WellFormed(e)
    ensures Decode(Layout(e)) == Assemble(Layout(e), e.words + [TrimLeadingZeros(e.pending)], e.trailing)
  {
    LayoutParts(e);
    var claim: seq<string> := e.words + [e.pending];
    DecodeByParts(Layout(e), e.words + [e.pending], e.trailing);
    assert Overwritten(claim, TrimLeadingZeros(e.pending)) == e.words + [TrimLeadingZeros(e.pending)];
  }

  /** Decoding a laid-out event gives back exactly its fields. */
  lemma RoundTrip(e: Event)
    requires WellFormed(e)
    ensures FeltValue(e.trailing[4]) * 1000 > 8_640_000_000_000_000 <==> Decode(Layout(e)) == Failure(RangeError)
    ensures FeltValue(e.trailing[4]) * 1000 <= 8_640_000_000_000_000 ==>
      Decode(Layout(e)) == Success(Decoded(
        e.assertionId,
        Decimal.NatText(CombineU256(FeltValue(e.domainLow), FeltValue(e.domainHigh))),
        ClaimText(e.words, e.pending),
        e.trailing[0], e.trailing[1], e.trailing[2], e.trailing[3],
        FeltValue(e.trailing[4]) * 1000,
        e.trailing[5],
        Decimal.NatText(CombineU256(FeltValue(e.trailing[6]), FeltValue(e.trailing[7]))),
        TrimLeadingZeros(e.trailing[8])))
  {
    DecodeOfLayout(e);
    ConcatenationIsClaimText(e.words, e.pending);
  }

  /** The date is too late for a JavaScript date. */
  predicate IsTooLate(date: Felt) {
    FeltValue(date) * 1000 > 8_640_000_000_000_000
  }

  /**
   * The branch on any data: with n the count word, it needs fourteen elements more than the claim has words,
   * one of them a date JavaScript can show, and then a fifteenth.
   */
  lemma ThrowsExactly(data: seq<Felt>)
    ensures |data| < 4 ==> Decode(data) == Failure(TypeError)
    ensures |data| >= 4 ==>
      var n := FeltValue(data[3]);
      && (Decode(data) == Failure(RangeError) <==> |data| >= 14 + n && IsTooLate(data[10 + n]))
      && (Decode(data).Success? <==> |data| >= 15 + n && !IsTooLate(data[10 + n]))
      && (Decode(data) == Failure(TypeError) <==>
            |data| < 14 + n || (|data| == 14 + n && !IsTooLate(data[10 + n])))
  {
    if |data| >= 5 {
      var n := FeltValue(data[3]);
      var rest := Slice(data, 6 + n, |data|);
      if |data| >= 14 + n {
        assert rest[4] == data[10 + n];
      }
    }
  }

  /** Data the branch accepts is the layout of some event, so the round trip says what it decodes to. */
  lemma EveryDataIsALayout(data: seq<Felt>)
    requires |data| >= 4 && |data| >= 15 + FeltValue(data[3])
    ensures exists e :: WellFormed(e) && Layout(e) == data
  {
    var n := FeltValue(data[3]);
    Hex.ValueBound(Digits(data[3]));
    CountWord(data[3]);
    var e := Event(data[0], data[1], data[2], data[4..4 + n], data[4 + n], data[5 + n], data[6 + n..]);
    assert Layout(e) == data;
  }

  lemma CountWord(f: Felt)
    ensures FeltOf(FeltValue(f)) == f
  {
    Hex.FixedOfValue(Digits(f));
    assert f == "0x" + Digits(f);
  }

  /** Every word takes 64 digits of the stored claim, and the pending word at most as many. */
  lemma ClaimLength(words: seq<Felt>, pending: Felt)
    ensures 64 * |words| <= |ClaimText(words, pending)| <= 64 * (|words| + 1)
  {
    JoinedLength(words);
  }

  lemma {:induction false} JoinedLength(words: seq<Felt>)
    ensures |Joined(words)| == 64 * |words|
  {
    if words == [] {
    } else {
      JoinedLength(words[1..]);
    }
  }

  /** The pending length never reaches the record, so it cannot be recovered from it. */
  lemma PendingLengthIsLost(e: Event, other: Felt)
    requires WellFormed(e)
    ensures Decode(Layout(e.(pendingLength := other))) == Decode(Layout(e))
  {
    RoundTrip(e);
    RoundTrip(e.(pendingLength := other));
  }

  // -------------------------------------------------------------------------
  // Unique decodability of the stored claim
  // -------------------------------------------------------------------------

  function AllDigits(words: seq<Felt>): (ds: seq<string>)
    ensures |ds| == |words| && forall i | 0 <= i < |words| :: ds[i] == Digits(words[i])
  {
    seq(|words|, i requires 0 <= i < |words| => Digits(words[i]))
  }

  datatype Split = Split(words: seq<string>, rest: string)

  /** Cut a stored claim into 64-digit words and what is left. */
  function SplitClaim(text: string): Split {
    if |text| < WORD then Split([], text)
    else
      var tail := SplitClaim(text[WORD..]);
      Split([text[..WORD]] + tail.words, tail.rest)
  }

  /** A pending word with 64 significant digits cannot be told from a full word. */
  predicate FillsWord(pending: Felt) {
    |Hex.TrimZeros(Digits(pending))| == WORD
  }

  lemma SplitOfWord(word: Felt, text: string)
    ensures SplitClaim(Digits(word) + text).words == [Digits(word)] + SplitClaim(text).words
    ensures SplitClaim(Digits(word) + text).rest == SplitClaim(text).rest
  {
    var all := Digits(word) + text;
    assert all[..WORD] == Digits(word) && all[WORD..] == text;
  }

  lemma AllDigitsStep(words: seq<Felt>)
    requires words != []
    ensures AllDigits(words) == [Digits(words[0])] + AllDigits(words[1..])
  {
  }

  lemma {:induction false} SplitAfterWords(words: seq<Felt>, rest: string)
    ensures SplitClaim(Joined(words) + rest).words == AllDigits(words) + SplitClaim(rest).words
    ensures SplitClaim(Joined(words) + rest).rest == SplitClaim(rest).rest
  {
    if words == [] {
      assert Joined(words) + rest == rest;
    } else {
      SplitAfterWords(words[1..], rest);
      SplitOfWord(words[0], Joined(words[1..]) + rest);
      Associative(Digits(words[0]), Joined(words[1..]), rest);
      AllDigitsStep(words);
    }
  }

  /** A stored claim splits into its full words and its pending digits, when those do not fill a word. */
  lemma SplitOfClaim(words: seq<Felt>, pending: Felt)
    ensures !FillsWord(pending) ==>
      && SplitClaim(ClaimText(words, pending)).words == AllDigits(words)
      && SplitClaim(ClaimText(words, pending)).rest == Hex.TrimZeros(Digits(pending))
    ensures FillsWord(pending) ==>
      && SplitClaim(ClaimText(words, pending)).words == AllDigits(words + [pending])
      && SplitClaim(ClaimText(words, pending)).rest == ""
  {
    var digits := Hex.TrimZeros(Digits(pending));
    if FillsWord(pending) {
      assert digits == Digits(pending);
      FilledPendingIsWord(words, pending);
      SplitAfterWords(words + [pending], "");
      assert Joined(words + [pending]) + "" == Joined(words + [pending]);
    } else {
      SplitAfterWords(words, digits);
    }
  }

  lemma DigitsDetermineFelts(a: seq<Felt>, b: seq<Felt>)
    requires AllDigits(a) == AllDigits(b)
    ensures a == b
  {
    forall i | 0 <= i < |a| ensures a[i] == b[i] {
      assert Digits(a[i]) == AllDigits(a)[i] == AllDigits(b)[i] == Digits(b[i]);
      assert a[i] == a[i][..2] + Digits(a[i]) && b[i] == b[i][..2] + Digits(b[i]);
    }
  }

  /** The stored claim determines the word list and the pending value, below 64 significant digits. */
  lemma ClaimIsUniquelyDecodable(words: seq<Felt>, pending: Felt, words': seq<Felt>, pending': Felt)
    requires !FillsWord(pending) && !FillsWord(pending')
    requires ClaimText(words, pending) == ClaimText(words', pending')
    ensures words == words' && pending == pending'
  {
    SplitOfClaim(words, pending);
    SplitOfClaim(words', pending');
    DigitsDetermineFelts(words, words');
    SamePending(pending, pending');
  }

  lemma SamePending(p: Felt, q: Felt)
    requires Hex.TrimZeros(Digits(p)) == Hex.TrimZeros(Digits(q))
    ensures p == q
  {
    Hex.TrimIsCanonical(Digits(p), Digits(q));
    Hex.ValueInjective(Digits(p), Digits(q));
    DigitsDetermineFelts([p], [q]);
  }

  ghost predicate Ambiguous(words: seq<Felt>, pending: Felt) {
    exists words': seq<Felt>, pending': Felt ::
      ClaimText(words', pending') == ClaimText(words, pending) && (words', pending') != (words, pending)
  }

  /** A zero pending word behind a word that fills all its digits. */
  predicate HidesLastWord(words: seq<Felt>, pending: Felt) {
    FeltValue(pending) == 0 && words != [] && FillsWord(words[|words| - 1])
  }

  lemma ZeroTrimsToNothing(pending: Felt)
    ensures FeltValue(pending) == 0 <==> Hex.TrimZeros(Digits(pending)) == ""
  {
    Hex.TrimIsCanonical(Digits(pending), "");
  }

  lemma FilledPendingIsAmbiguous(words: seq<Felt>, pending: Felt)
    requires FillsWord(pending)
    ensures Ambiguous(words, pending)
  {
    ZeroPendingAdds(words + [pending]);
    FilledPendingIsWord(words, pending);
    assert (words + [pending], FeltOf(0)) != (words, pending);
    assert ClaimText(words + [pending], FeltOf(0)) == ClaimText(words, pending);
  }

  lemma ZeroIsUnique(pending: Felt)
    requires FeltValue(pending) == 0
    ensures pending == FeltOf(0)
  {
    ZeroValue();
    ZeroTrimsToNothing(pending);
    ZeroTrimsToNothing(FeltOf(0));
    SamePending(pending, FeltOf(0));
  }

  lemma HiddenWordIsAmbiguous(words: seq<Felt>, pending: Felt)
    requires HidesLastWord(words, pending)
    ensures Ambiguous(words, pending)
  {
    var front, last := words[..|words| - 1], words[|words| - 1];
    assert front + [last] == words;
    FilledPendingIsWord(front, last);
    ZeroPendingAdds(words);
    ZeroIsUnique(pending);
    assert ClaimText(front, last) == ClaimText(words, pending);
    assert (front, last) != (words, pending) by { assert |front| != |words|; }
  }

  lemma OtherwiseUnique(words: seq<Felt>, pending: Felt, words': seq<Felt>, pending': Felt)
    requires !FillsWord(pending) && !HidesLastWord(words, pending)
    requires ClaimText(words', pending') == ClaimText(words, pending)
    ensures (words', pending') == (words, pending)
  {
    if FillsWord(pending') {
      SplitOfClaim(words, pending);
      SplitOfClaim(words', pending');
      DigitsDetermineFelts(words, words' + [pending']);
      ZeroTrimsToNothing(pending);
      assert false;
    } else {
      ClaimIsUniquelyDecodable(words, pending, words', pending');
    }
  }

  /** Exactly when some other claim is stored as the same text. */
  lemma AmbiguousExactly(words: seq<Felt>, pending: Felt)
    ensures Ambiguous(words, pending) <==> FillsWord(pending) || HidesLastWord(words, pending)
  {
    if FillsWord(pending) {
      FilledPendingIsAmbiguous(words, pending);
    } else if HidesLastWord(words, pending) {
      HiddenWordIsAmbiguous(words, pending);
    } else if Ambiguous(words, pending) {
      var words': seq<Felt>, pending': Felt :|
        ClaimText(words', pending') == ClaimText(words, pending) && (words', pending') != (words, pending);
      OtherwiseUnique(words, pending, words', pending');
    }
  }

  lemma ZeroValue()
    ensures FeltValue(FeltOf(0)) == 0
  {
    Hex.FixedValue(0, WORD);
    assert Digits(FeltOf(0)) == Hex.Fixed(0, WORD);
  }

  lemma ZeroPendingAdds(words: seq<Felt>)
    ensures ClaimText(words, FeltOf(0)) == Joined(words)
  {
    ZeroValue();
    ZeroTrimsToNothing(FeltOf(0));
  }

  lemma {:induction false} JoinedOneMore(words: seq<Felt>, word: Felt)
    ensures Joined(words + [word]) == Joined(words) + Digits(word)
  {
    var all := words + [word];
    if words == [] {
      assert all[1..] == [];
    } else {
      JoinedOneMore(words[1..], word);
      assert all[1..] == words[1..] + [word];
    }
  }

  lemma FilledPendingIsWord(words: seq<Felt>, pending: Felt)
    requires FillsWord(pending)
    ensures ClaimText(words, pending) == Joined(words + [pending])
  {
    JoinedOneMore(words, pending);
  }

  /** From decode to source: the record of an event with an ordinary pending word yields its claim. */
  lemma ClaimRecovered(e: Event)
    requires WellFormed(e) && !FillsWord(e.pending)
    requires Decode(Layout(e)).Success?
    ensures SplitClaim(Decode(Layout(e)).value.claim) == Split(AllDigits(e.words), Hex.TrimZeros(Digits(e.pending)))
  {
    RoundTrip(e);
    SplitOfClaim(e.words, e.pending);
  }

  // -------------------------------------------------------------------------
  // 256-bit values and trimming
  // -------------------------------------------------------------------------

  /** Both halves come back by division and remainder, so the combination is injective and 256 bits wide. */
  lemma CombineRecoversHalves(low: nat, high: nat)
    requires low < Hex.TWO_128 && high < Hex.TWO_128
    ensures CombineU256(low, high) < Hex.TWO_128 * Hex.TWO_128
    ensures CombineU256(low, high) / Hex.TWO_128 == high
    ensures CombineU256(low, high) % Hex.TWO_128 == low
  {
    var v := CombineU256(low, high);
    assert v == high * Hex.TWO_128 + low;
  }

  /** Distinct 256-bit values get distinct decimal texts in the record. */
  lemma CombinedTextInjective(low: nat, high: nat, low': nat, high': nat)
    requires low < Hex.TWO_128 && high < Hex.TWO_128 && low' < Hex.TWO_128 && high' < Hex.TWO_128
    ensures Decimal.NatText(CombineU256(low, high)) == Decimal.NatText(CombineU256(low', high'))
            <==> low == low' && high == high'
  {
    Decimal.NatTextInjective(CombineU256(low, high), CombineU256(low', high'));
    CombineRecoversHalves(low, high);
    CombineRecoversHalves(low', high');
  }

  /** Trimming twice is trimming once, for every text. */
  lemma TrimmingIsIdempotent(s: string)
    ensures TrimLeadingZeros(TrimLeadingZeros(s)) == TrimLeadingZeros(s)
  {
    if "0x" <= s {
      var trimmed := Hex.TrimZeros(s[2..]);
      assert ("0x" + trimmed)[2..] == trimmed;
    }
  }

  /** With or without the prefix: trimming keeps the value and leaves the shortest text of that value. */
  lemma TrimmingIsCanonical(prefix: string, digits: string, t: string)
    requires prefix == "0x" || prefix == ""
    requires Hex.IsHex(digits) && Hex.IsHex(t) && Hex.Value(t) == Hex.Value(digits)
    ensures var trimmed := TrimLeadingZeros(prefix + digits);
            && prefix <= trimmed
            && Hex.IsHex(trimmed[|prefix|..]) && Hex.Value(trimmed[|prefix|..]) == Hex.Value(digits)
            && |trimmed| <= |prefix + t|
  {
    Hex.TrimKeepsValue(digits);
    Hex.TrimIsShortest(digits, t);
    TrimmedDigits(prefix, digits);
    assert (prefix + Hex.TrimZeros(digits))[|prefix|..] == Hex.TrimZeros(digits);
  }

  lemma TrimmedDigits(prefix: string, digits: string)
    requires (prefix == "0x" || prefix == "") && Hex.IsHex(digits)
    ensures TrimLeadingZeros(prefix + digits) == prefix + Hex.TrimZeros(digits)
  {
    if prefix == "0x" {
      assert (prefix + digits)[2..] == digits;
    } else {
      DigitsHaveNoPrefix(digits);
      assert prefix + digits == digits && prefix + Hex.TrimZeros(digits) == Hex.TrimZeros(digits);
    }
  }

  lemma DigitsHaveNoPrefix(digits: string)
    requires Hex.IsHex(digits)
    ensures !("0x" <= digits)
  {
    assert |digits| >= 2 ==> Hex.IsDigit(digits[1]);
    assert "0x"[1] == 'x';
  }
}
