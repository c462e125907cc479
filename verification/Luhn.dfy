/** The check-digit validation of pkg/luhn.

The loops work on `uint64` values; sums that could wrap are written with `Wrap`. The reference is
the "modulus 10 double-add-double" formula of Annex B of ISO/IEC 7812-1: counting from the right,
every second digit is doubled and the decimal digits of the product are added up. */
module Luhn {
  import opened Common

  const DOUBLE_COEFFICIENT := 2
  const OVERFLOW_VALUE := 9
  const NUMBER_SYSTEM_BASE := 10

  /** What a call of Validate ends in; the empty digit slice of number 0 is indexed at 0. */
  datatype Verdict = Accepted | CheckDigitMismatch | IndexOutOfRange

  function Wrap(x: nat): nat {
    x % UINT64_SIZE
  }

  // ---- Reference: decimal digits and the Annex B sum ----

  /** The decimal digits of n, least significant first. */
  function Digits(n: nat): seq<nat> {
    if n == 0 then [] else [n % 10] + Digits(n / 10)
  }

  /** The number that a reversed digit slice denotes in base 10. */
  function ValueOf(digits: seq<nat>): nat {
    if digits == [] then 0 else digits[0] + 10 * ValueOf(digits[1..])
  }

  function Pow10(k: nat): nat {
    if k == 0 then 1 else 10 * Pow10(k - 1)
  }

  /** The sum of the decimal digits of a number below 100. */
  function DigitSum(x: nat): nat {
    x / 10 + x % 10
  }

  /** What the digit with `place` digits to its right adds to the Annex B sum. */
  function Contribution(digit: nat, place: nat): nat {
    if place % 2 == 1 then DigitSum(2 * digit) else digit
  }

  /** The Annex B sum of the digits of n, the last of which stands at the given place. */
  function LuhnSum(n: nat, place: nat): nat {
    if n == 0 then 0 else Contribution(n % 10, place) + LuhnSum(n / 10, place + 1)
  }

  predicate LuhnValid(n: nat) {
    LuhnSum(n, 0) % 10 == 0
  }

  /** The part of the sum that a slice of digits contributes from index i on. */
  function SliceSum(digits: seq<nat>, i: nat): nat
    decreases |digits| - i
  {
    if i >= |digits| then 0 else Contribution(digits[i], i) + SliceSum(digits, i + 1)
  }

  lemma {:induction false} SliceSumOfDigits(n: nat, digits: seq<nat>, i: nat)
    requires i <= |digits| && digits[i..] == Digits(n)
    ensures SliceSum(digits, i) == LuhnSum(n, i)
    decreases n
  {
    if n > 0 {
      assert digits[i] == digits[i..][0] == n % 10;
      assert digits[i + 1..] == digits[i..][1..] == Digits(n / 10);
      SliceSumOfDigits(n / 10, digits, i + 1);
    }
  }

  lemma {:induction false} DigitsDenoteNumber(n: nat)
    ensures ValueOf(Digits(n)) == n
    ensures forall i :: 0 <= i < |Digits(n)| ==> 0 <= Digits(n)[i] <= 9
    ensures n > 0 ==> |Digits(n)| > 0 && Digits(n)[|Digits(n)| - 1] != 0
  {
    if n > 0 {
      DigitsDenoteNumber(n / 10);
      assert Digits(n)[1..] == Digits(n / 10);
      if n >= 10 {
        assert Digits(n)[|Digits(n)| - 1] == Digits(n / 10)[|Digits(n / 10)| - 1];
      }
    }
  }

  lemma {:induction false} DigitCount(n: nat, k: nat)
    requires n < Pow10(k)
    ensures |Digits(n)| <= k
  {
    if n > 0 {
      DigitCount(n / 10, k - 1);
    }
  }

  lemma Uint64HasTwentyDigits(n: nat)
    requires n < UINT64_SIZE
    ensures |Digits(n)| <= 20
  {
    calc {
      Pow10(20);
      100 * Pow10(18);
      10000 * Pow10(16);
      1000000 * Pow10(14);
      100000000 * Pow10(12);
      10000000000 * Pow10(10);
      1000000000000 * Pow10(8);
      100000000000000 * Pow10(6);
      10000000000000000 * Pow10(4);
      1000000000000000000 * Pow10(2);
      100000000000000000000;
    }
    DigitCount(n, 20);
  }

  lemma LuhnSumUnfolds(n: nat, place: nat)
    ensures LuhnSum(n, place) == Contribution(n % 10, place) + LuhnSum(n / 10, place + 1)
  {
  }

  /** The digit that completes a sum to a multiple of 10 is unique. */
  lemma CompletingDigitIsUnique(sum: nat, completing: nat, digit: nat)
    requires completing <= 9 && digit <= 9 && (sum + completing) % 10 == 0
    ensures (digit + sum) % 10 == 0 <==> completing == digit
  {
  }

  // ---- The code ----

  function DoubleDigit(digit: nat): nat {
    var result := Wrap(digit * DOUBLE_COEFFICIENT);
    if result > OVERFLOW_VALUE then result - OVERFLOW_VALUE else result
  }

  function MaybeDoubleDigit(digit: nat, position: nat): nat {
    if position % 2 != 0 then digit else DoubleDigit(digit)
  }

  lemma WrapKeepsSmall(x: nat)
    requires x < UINT64_SIZE
    ensures Wrap(x) == x
  {
  }

  lemma DoubledDigitSum(digit: nat)
    requires digit <= 9
    ensures DigitSum(2 * digit) == if digit < 5 then 2 * digit else 2 * digit - 9
  {
  }

  lemma ParityAlternates(place: nat)
    ensures (place + 1) % 2 != 0 <==> place % 2 != 1
  {
  }

  /** Subtracting 9 from a two-digit product adds up its digits, as Annex B prescribes. */
  lemma DoublingAddsTheDigits(digit: nat, place: nat)
    requires digit <= 9
    ensures MaybeDoubleDigit(digit, place + 1) == Contribution(digit, place) <= 9
  {
    WrapKeepsSmall(digit * DOUBLE_COEFFICIENT);
    DoubledDigitSum(digit);
    ParityAlternates(place);
  }

  lemma ComplementCompletes(sum: nat)
    ensures var c := (NUMBER_SYSTEM_BASE - sum % NUMBER_SYSTEM_BASE) % NUMBER_SYSTEM_BASE;
            0 <= c <= 9 && (sum + c) % 10 == 0
  {
  }

  method NumberToDigitsReversed(number: nat) returns (digits: seq<nat>)
    requires number < UINT64_SIZE
    ensures ValueOf(digits) == number && |digits| <= 20
    ensures forall i :: 0 <= i < |digits| ==> 0 <= digits[i] <= 9
    ensures number > 0 ==> |digits| > 0 && digits[|digits| - 1] != 0
    ensures digits == Digits(number)
  {
    digits := [];
    var rest := number;
    while rest > 0
      invariant 0 <= rest && digits + Digits(rest) == Digits(number)
    {
      var n, r := rest / NUMBER_SYSTEM_BASE, rest % NUMBER_SYSTEM_BASE;
      assert digits + Digits(rest) == digits + [r] + Digits(n);
      digits := digits + [r];
      rest := n;
    }
    assert digits == digits + Digits(0);
    DigitsDenoteNumber(number);
    Uint64HasTwentyDigits(number);
  }

  method CalculateCheckDigit(number: nat) returns (expected: nat, actual: nat)
    requires 0 < number < UINT64_SIZE
    ensures expected == number % 10
    ensures actual <= 9 && (LuhnSum(number / 10, 1) + actual) % 10 == 0
  {
    var checkSum := 0;
    var digits := NumberToDigitsReversed(number);
    expected := digits[0];
    var i := 1;
    while i < |digits|
      invariant 1 <= i <= |digits|
      invariant checkSum + SliceSum(digits, i) == SliceSum(digits, 1)
      invariant 0 <= checkSum <= 9 * i
    {
      DoublingAddsTheDigits(digits[i], i);
      WrapKeepsSmall(checkSum + MaybeDoubleDigit(digits[i], i + 1));
      checkSum := Wrap(checkSum + MaybeDoubleDigit(digits[i], i + 1));
      i := i + 1;
    }
    assert digits[1..] == Digits(number / 10);
    SliceSumOfDigits(number / 10, digits, 1);
    ComplementCompletes(checkSum);
    actual := (NUMBER_SYSTEM_BASE - checkSum % NUMBER_SYSTEM_BASE) % NUMBER_SYSTEM_BASE;
  }

  method Validate(number: nat) returns (verdict: Verdict)
    requires number < UINT64_SIZE
    ensures verdict == IndexOutOfRange <==> number == 0
    ensures verdict == Accepted <==> number > 0 && LuhnValid(number)
  {
    if number == 0 {
      return IndexOutOfRange;
    }
    var expected, actual := CalculateCheckDigit(number);
    LuhnSumUnfolds(number, 0);
    CompletingDigitIsUnique(LuhnSum(number / 10, 1), actual, expected);
    verdict := if actual != expected then CheckDigitMismatch else Accepted;
  }

  // ---- What validation is for: catching mistyped numbers ----

  /** The digit of n with k digits to its right (0 beyond the leading digit). */
  function Digit(n: nat, k: nat): nat {
    if k == 0 then n % 10 else Digit(n / 10, k - 1)
  }

  function ReplaceDigit(n: nat, k: nat, d: nat): nat {
    if k == 0 then n / 10 * 10 + d else 10 * ReplaceDigit(n / 10, k - 1, d) + n % 10
  }

  function SwapWithNext(n: nat, k: nat): nat {
    ReplaceDigit(ReplaceDigit(n, k, Digit(n, k + 1)), k + 1, Digit(n, k))
  }

  lemma {:induction false} ReplaceDigitChangesOnlyThatDigit(n: nat, k: nat, d: nat, j: nat)
    requires d <= 9
    ensures Digit(ReplaceDigit(n, k, d), j) == if j == k then d else Digit(n, j)
  {
    if k > 0 && j > 0 {
      ReplaceDigitChangesOnlyThatDigit(n / 10, k - 1, d, j - 1);
    }
  }

  lemma {:induction false} DigitIsDecimal(n: nat, k: nat)
    ensures Digit(n, k) <= 9
  {
    if k > 0 {
      DigitIsDecimal(n / 10, k - 1);
    }
  }

  lemma ReplaceDigitSplits(n: nat, k: nat, d: nat)
    requires d <= 9
    ensures ReplaceDigit(n, k, d) / 10 == if k == 0 then n / 10 else ReplaceDigit(n / 10, k - 1, d)
    ensures ReplaceDigit(n, k, d) % 10 == if k == 0 then d else n % 10
  {
  }

  lemma {:induction false} SumAfterReplace(n: nat, k: nat, d: nat, place: nat)
    requires d <= 9
    ensures LuhnSum(ReplaceDigit(n, k, d), place) + Contribution(Digit(n, k), place + k)
         == LuhnSum(n, place) + Contribution(d, place + k)
  {
    LuhnSumUnfolds(n, place);
    LuhnSumUnfolds(ReplaceDigit(n, k, d), place);
    ReplaceDigitSplits(n, k, d);
    if k > 0 {
      SumAfterReplace(n / 10, k - 1, d, place + 1);
    }
  }

  lemma ContributionTable(digit: nat, place: nat)
    requires digit <= 9
    ensures Contribution(digit, place)
         == if place % 2 == 0 then digit else if digit < 5 then 2 * digit else 2 * digit - 9
  {
  }

  lemma SumsMoveApart(x: int, y: int, a: int, b: int)
    requires x + a == y + b && y % 10 == 0 && 0 <= a <= 9 && 0 <= b <= 9
    ensures x % 10 == 0 <==> a == b
  {
  }

  /** Changing any single digit of a valid number makes it invalid. */
  lemma {:induction false} SingleDigitErrorIsDetected(n: nat, k: nat, d: nat)
    requires LuhnValid(n) && d <= 9 && d != Digit(n, k)
    ensures !LuhnValid(ReplaceDigit(n, k, d))
  {
    DigitIsDecimal(n, k);
    SumAfterReplace(n, k, d, 0);
    ContributionTable(Digit(n, k), k);
    ContributionTable(d, k);
    SumsMoveApart(LuhnSum(ReplaceDigit(n, k, d), 0), LuhnSum(n, 0), Contribution(Digit(n, k), k), Contribution(d, k));
  }

  lemma SumAfterSwap(n: nat, k: nat)
    ensures LuhnSum(SwapWithNext(n, k), 0) + Contribution(Digit(n, k), k) + Contribution(Digit(n, k + 1), k + 1)
         == LuhnSum(n, 0) + Contribution(Digit(n, k + 1), k) + Contribution(Digit(n, k), k + 1)
  {
    var a, b := Digit(n, k), Digit(n, k + 1);
    DigitIsDecimal(n, k);
    DigitIsDecimal(n, k + 1);
    SumAfterReplace(n, k, b, 0);
    ReplaceDigitChangesOnlyThatDigit(n, k, b, k + 1);
    SumAfterReplace(ReplaceDigit(n, k, b), k + 1, a, 0);
  }

  /** Swapping two unequal neighbours goes unnoticed exactly when they are 0 and 9. */
  lemma {:induction false} AdjacentSwapIsDetectedUnlessZeroNine(n: nat, k: nat)
    requires LuhnValid(n) && Digit(n, k) != Digit(n, k + 1)
    ensures LuhnValid(SwapWithNext(n, k))
       <==> (Digit(n, k) == 0 && Digit(n, k + 1) == 9) || (Digit(n, k) == 9 && Digit(n, k + 1) == 0)
  {
    DigitIsDecimal(n, k);
    DigitIsDecimal(n, k + 1);
    SumAfterSwap(n, k);
    SwapShiftsTheSum(LuhnSum(SwapWithNext(n, k), 0), LuhnSum(n, 0), Digit(n, k), Digit(n, k + 1), k);
  }

  lemma SwapShiftsTheSum(x: int, y: int, a: nat, b: nat, place: nat)
    requires a <= 9 && b <= 9 && a != b && y % 10 == 0
    requires x + Contribution(a, place) + Contribution(b, place + 1)
          == y + Contribution(b, place) + Contribution(a, place + 1)
    ensures x % 10 == 0 <==> (a == 0 && b == 9) || (a == 9 && b == 0)
  {
    ContributionTable(a, place);
    ContributionTable(b, place);
    ContributionTable(a, place + 1);
    ContributionTable(b, place + 1);
    var da := Contribution(a, place) - Contribution(a, place + 1);
    var db := Contribution(b, place) - Contribution(b, place + 1);
    var sign := if place % 2 == 0 then 1 else -1;
    ParityGap(a, place);
    ParityGap(b, place);
    assert x - y == db - da == sign * (Gap(b) - Gap(a));
    MultipleOfTen(x, y, x - y);
  }

  /** Undoubled minus doubled contribution of a digit. */
  function Gap(digit: int): int {
    if digit < 5 then -digit else 9 - digit
  }

  lemma ParityGap(digit: nat, place: nat)
    requires digit <= 9
    ensures Contribution(digit, place) - Contribution(digit, place + 1)
         == if place % 2 == 0 then Gap(digit) else -Gap(digit)
  {
    ContributionTable(digit, place);
    ContributionTable(digit, place + 1);
  }

  lemma MultipleOfTen(x: int, y: int, gap: int)
    requires x == y + gap && y % 10 == 0 && -9 <= gap <= 9
    ensures x % 10 == 0 <==> gap == 0
  {
  }

  /** Whether the number made of the payload followed by the check digit is valid. */
  predicate Accepts(payload: nat, check: nat) {
    LuhnValid(10 * payload + check)
  }

  lemma AppendedDigit(payload: nat, d: nat)
    requires d <= 9
    ensures (10 * payload + d) / 10 == payload && (10 * payload + d) % 10 == d
  {
  }

  lemma CheckDigitBalances(sum: nat, d: nat)
    requires d <= 9
    ensures (d + sum) % 10 == 0 <==> d == (10 - sum % 10) % 10
  {
  }

  /** Every payload has exactly one accepted check digit. */
  lemma {:induction false} CheckDigitExistsAndIsUnique(payload: nat) returns (check: nat)
    requires payload > 0
    ensures check <= 9
    ensures forall d: nat :: d <= 9 ==> (Accepts(payload, d) <==> d == check)
  {
    var sum := LuhnSum(payload, 1);
    check := (10 - sum % 10) % 10;
    forall d: nat | d <= 9
      ensures Accepts(payload, d) <==> d == check
    {
      LuhnSumUnfolds(10 * payload + d, 0);
      AppendedDigit(payload, d);
      CheckDigitBalances(sum, d);
    }
  }
}
