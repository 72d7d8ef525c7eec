/** The check character of an 18-character identity number: the ISO 7064:1983
    MOD 11-2 scheme as clause 5.5 of GB 11643-1999 applies it. The first 17
    digits are weighted by 2^(17-i) mod 11, the weighted sum is reduced modulo
    11 and a fixed table turns the remainder into the check character, so that
    the weighted sum of all 18 positions, the check character counting 10 for
    'X' and weight 1, is 1 modulo 11. */
module CheckCode {
  import opened Wrappers
  import opened Text

  /** `WEIGHTS`: the weight of each of the first 17 positions. */
  const Weights: seq<nat> := [7, 9, 10, 5, 8, 4, 2, 1, 6, 3, 7, 9, 10, 5, 8, 4, 2]

  /** `CHECK_CODES`: the check character for each remainder 0..10. */
  const CheckCodes: seq<char> := ['1', '0', 'X', '9', '8', '7', '6', '5', '4', '3', '2']

  /** The `ValueError` that `generate_check_code` raises. */
  datatype CheckCodeError = NotSeventeenDigits

  function ErrorMessage(e: CheckCodeError): string {
    match e
    case NotSeventeenDigits => "前17位必须都是数字"
  }

  /** 2^k. */
  function Pow2(k: nat): nat {
    if k == 0 then 1 else 2 * Pow2(k - 1)
  }

  /** The weight table is the MOD 11-2 weight 2^(17-i) mod 11 of each position. */
  lemma WeightsArePowersOfTwo()
    ensures |Weights| == 17
    ensures forall i :: 0 <= i < 17 ==> Weights[i] == Pow2(17 - i) % 11
  {
    assert Pow2(1) == 2 && Pow2(2) == 4 && Pow2(3) == 8 && Pow2(4) == 16;
    assert Pow2(5) == 32 && Pow2(6) == 64 && Pow2(7) == 128 && Pow2(8) == 256;
    assert Pow2(9) == 512 && Pow2(10) == 1024 && Pow2(11) == 2048 && Pow2(12) == 4096;
    assert Pow2(13) == 8192 && Pow2(14) == 16384 && Pow2(15) == 32768;
    assert Pow2(16) == 65536 && Pow2(17) == 131072;
  }

  /** A character that can stand in the check position once upper-cased. */
  predicate IsCheckChar(c: char) {
    IsDigit(c) || c == 'X'
  }

  /** The value of a check character: a digit its own value, 'X' ten. */
  function CheckValue(c: char): (v: nat)
    requires IsCheckChar(c)
    ensures v <= 10 && (v == 10 <==> c == 'X')
  {
    if c == 'X' then 10 else DigitValue(c)
  }

  /** Two check characters with the same value are the same character. */
  lemma CheckValueInjective(c: char, d: char)
    requires IsCheckChar(c) && IsCheckChar(d) && CheckValue(c) == CheckValue(d)
    ensures c == d
  {
  }

  /** The table holds check characters, and the one at index `r` has the
      value that brings `r` up to 1 modulo 11. */
  lemma CheckCodesComplement(r: nat)
    requires r < 11
    ensures |CheckCodes| == 11 && IsCheckChar(CheckCodes[r])
    ensures (r + CheckValue(CheckCodes[r])) % 11 == 1
  {
  }

  /** Two values that agree modulo 11 differ by a multiple of 11. */
  lemma SameRemainder(x: int, y: int)
    requires x % 11 == y % 11
    ensures (y - x) % 11 == 0
  {
    assert x == 11 * (x / 11) + x % 11;
    assert y == 11 * (y / 11) + y % 11;
    assert y - x == 11 * (y / 11 - x / 11);
  }

  /** Two values up to 10 that bring the same sum to the same remainder
      modulo 11 are equal. */
  lemma SameResidueSameValue(s: int, v: int, w: int)
    requires 0 <= v <= 10 && 0 <= w <= 10 && (s + v) % 11 == (s + w) % 11
    ensures v == w
  {
    SameRemainder(s + v, s + w);
  }

  // ---------------------------------------------------------------------------
  // The weighted sum
  // ---------------------------------------------------------------------------

  /** The first `n` characters of `s` are digits. */
  predicate DigitsBelow(s: string, n: nat) {
    n <= |s| && forall i :: 0 <= i < n ==> IsDigit(s[i])
  }

  /** Σ int(s[i]) * WEIGHTS[i] over the first `n` positions. */
  function WeightedSumTo(s: string, n: nat): nat
    requires n <= |Weights| && DigitsBelow(s, n)
  {
    if n == 0 then 0
    else WeightedSumTo(s, n - 1) + DigitValue(s[n - 1]) * Weights[n - 1]
  }

  /** `sum(int(d) * w for d, w in zip(s, WEIGHTS))` for a run of digits no
      longer than the weight table. */
  function WeightedSum(s: string): nat
    requires |s| <= |Weights| && AllDigits(s)
  {
    WeightedSumTo(s, |s|)
  }

  /** The weighted sum only looks at the positions it sums over. */
  lemma {:induction false} WeightedSumAgree(s: string, t: string, n: nat)
    requires n <= |Weights| && DigitsBelow(s, n) && DigitsBelow(t, n)
    requires forall j :: 0 <= j < n ==> s[j] == t[j]
    ensures WeightedSumTo(s, n) == WeightedSumTo(t, n)
  {
    if n > 0 {
      WeightedSumAgree(s, t, n - 1);
    }
  }

  /** The weighted sum of the 17-character prefix is the weighted sum of the
      first 17 positions of the whole number. */
  lemma WeightedSumOfPrefix(id: string)
    requires DigitsBelow(id, 17)
    ensures AllDigits(id[..17])
    ensures WeightedSum(id[..17]) == WeightedSumTo(id, 17)
  {
    assert forall j :: 0 <= j < 17 ==> id[..17][j] == id[j];
    WeightedSumAgree(id[..17], id, 17);
  }

  // ---------------------------------------------------------------------------
  // generate_check_code and _check_verification_code
  // ---------------------------------------------------------------------------

  /** `generate_check_code`: fails unless the argument is exactly 17 digits;
      otherwise the check character, which is one of the table's characters
      and completes the MOD 11-2 congruence. */
  function GenerateCheckCode(id17: string): (r: Result<char, CheckCodeError>)
    ensures r.Success? <==> |id17| == 17 && AllDigits(id17)
    ensures r.Failure? ==> r.error == NotSeventeenDigits
    ensures r.Success? ==> r.value in CheckCodes && IsCheckChar(r.value)
    ensures r.Success? ==> (WeightedSum(id17) + CheckValue(r.value)) % 11 == 1
  {
    if |id17| != 17 || !AllDigits(id17) then Failure(NotSeventeenDigits)
    else
      var sum := WeightedSum(id17);
      CheckCodesComplement(sum % 11);
      Success(CheckCodes[sum % 11])
  }

  /** The generated character is the only check character that completes the
      congruence: generation and the congruence determine each other. */
  lemma GeneratedCodeIsUnique(id17: string, c: char)
    requires |id17| == 17 && AllDigits(id17) && IsCheckChar(c)
    ensures (WeightedSum(id17) + CheckValue(c)) % 11 == 1 <==> GenerateCheckCode(id17) == Success(c)
  {
    var g := GenerateCheckCode(id17).value;
    if (WeightedSum(id17) + CheckValue(c)) % 11 == 1 {
      SameResidueSameValue(WeightedSum(id17), CheckValue(c), CheckValue(g));
      CheckValueInjective(c, g);
    }
  }

  /** `_check_verification_code`: the upper-cased 18th character equals the
      check character generated from the first 17; anything after the 18th
      character is not looked at. The source raises on a shorter string or
      one whose first 17 characters are not all digits. */
  function CheckVerificationCode(id: string): (ok: bool)
    requires |id| >= 18 && DigitsBelow(id, 17)
    ensures ok <==>
      && IsCheckChar(UpperChar(id[17]))
      && (WeightedSumTo(id, 17) + CheckValue(UpperChar(id[17]))) % 11 == 1
  {
    WeightedSumOfPrefix(id);
    var expected := GenerateCheckCode(id[..17]).value;
    var last := UpperChar(id[17]);
    assert IsCheckChar(last) ==> (last == expected <==> (WeightedSum(id[..17]) + CheckValue(last)) % 11 == 1) by {
      if IsCheckChar(last) { GeneratedCodeIsUnique(id[..17], last); }
    }
    last == expected
  }

  // ---------------------------------------------------------------------------
  // The scheme as the standard states it, and what the check character buys
  // ---------------------------------------------------------------------------

  /** A number the verification can be asked about whose last character, once
      upper-cased, is a digit or 'X' (a lower-case 'x' counts as 'X'). */
  predicate IsCheckable(id: string) {
    |id| == 18 && DigitsBelow(id, 17) && IsCheckChar(UpperChar(id[17]))
  }

  /** The value the standard gives position `j`. */
  function PositionValue(id: string, j: nat): (v: nat)
    requires IsCheckable(id) && j < 18
    ensures v <= 10
  {
    if j < 17 then DigitValue(id[j]) else CheckValue(UpperChar(id[17]))
  }

  /** The standard's weight of position `j`: 2^(17-j) mod 11. */
  function IsoWeight(j: nat): (w: nat)
    requires j < 18
    ensures w < 11
  {
    Pow2(17 - j) % 11
  }

  /** Σ a_j * (2^(17-j) mod 11) over the first `n` positions. */
  function IsoSum(id: string, n: nat): int
    requires IsCheckable(id) && n <= 18
  {
    if n == 0 then 0
    else IsoSum(id, n - 1) + PositionValue(id, n - 1) * IsoWeight(n - 1)
  }

  /** ISO 7064 MOD 11-2 acceptance: the weighted sum of all 18 positions,
      position j weighted 2^(17-j) mod 11, is 1 modulo 11. */
  predicate IsoMod11_2Valid(id: string)
    requires IsCheckable(id)
  {
    IsoSum(id, 18) % 11 == 1
  }

  /** Over the first 17 positions the standard's sum is the source's
      weighted sum. */
  lemma {:induction false} IsoSumIsWeightedSum(id: string, n: nat)
    requires IsCheckable(id) && n <= 17
    ensures IsoSum(id, n) == WeightedSumTo(id, n)
  {
    if n > 0 {
      WeightsArePowersOfTwo();
      IsoSumIsWeightedSum(id, n - 1);
    }
  }

  /** The verification check accepts exactly the numbers that satisfy the
      standard's congruence. */
  lemma VerificationIsIsoMod11_2(id: string)
    requires IsCheckable(id)
    ensures CheckVerificationCode(id) <==> IsoMod11_2Valid(id)
  {
    IsoSumIsWeightedSum(id, 17);
    assert IsoWeight(17) == 1;
  }

  /** Round trip: appending the generated character to 17 digits gives a
      number whose verification succeeds, and so does appending a lower-case
      'x' where the generated character is 'X'. */
  lemma AppendedCheckCodeVerifies(p: string)
    requires |p| == 17 && AllDigits(p)
    ensures GenerateCheckCode(p).Success?
    ensures CheckVerificationCode(p + [GenerateCheckCode(p).value])
    ensures GenerateCheckCode(p).value == 'X' ==> CheckVerificationCode(p + ['x'])
  {
    var c := GenerateCheckCode(p).value;
    assert (p + [c])[..17] == p;
    assert (p + ['x'])[..17] == p;
    WeightedSumOfPrefix(p + [c]);
    WeightedSumOfPrefix(p + ['x']);
  }

  /** 11 is prime: a nonzero multiple smaller than 11 of a weight that is not
      a multiple of 11 is not a multiple of 11. */
  lemma NoZeroDivisors(a: int, w: int)
    requires 0 < a < 11 || -11 < a < 0
    requires 0 < w < 11 || -11 < w < 0
    ensures (a * w) % 11 != 0
  {
    if w == 1 { } else if w == 2 { } else if w == 3 { } else if w == 4 { }
    else if w == 5 { } else if w == 6 { } else if w == 7 { } else if w == 8 { }
    else if w == 9 { } else if w == 10 { } else if w == -1 { } else if w == -2 { }
    else if w == -3 { } else if w == -4 { } else if w == -5 { } else if w == -6 { }
    else if w == -7 { } else if w == -8 { } else if w == -9 { } else { assert w == -10; }
  }

  /** Changing the digit at one position changes the weighted sum by the
      change times that position's weight. */
  lemma {:induction false} WeightedSumChange(s: string, t: string, n: nat, k: nat)
    requires n <= |Weights| && DigitsBelow(s, n) && DigitsBelow(t, n) && k < n
    requires forall j :: 0 <= j < n && j != k ==> s[j] == t[j]
    ensures WeightedSumTo(t, n) == WeightedSumTo(s, n) + (DigitValue(t[k]) - DigitValue(s[k])) * Weights[k]
  {
    if k < n - 1 {
      WeightedSumChange(s, t, n - 1, k);
    } else {
      WeightedSumAgree(s, t, n - 1);
      var a: int, b: int, w: int := DigitValue(s[k]), DigitValue(t[k]), Weights[k];
      assert b * w == a * w + (b - a) * w;
    }
  }

  lemma SwapIdentity(a: int, b: int, v: int, w: int)
    ensures (b - a) * v + a * w - b * w == (b - a) * (v - w)
  {
  }

  /** Exchanging the digits at positions k and k + 1 changes the weighted sum
      by their difference times the difference of the two weights. */
  lemma {:induction false} WeightedSumSwap(s: string, t: string, n: nat, k: nat)
    requires n <= |Weights| && DigitsBelow(s, n) && DigitsBelow(t, n) && k + 1 < n
    requires t[k] == s[k + 1] && t[k + 1] == s[k]
    requires forall j :: 0 <= j < n && j != k && j != k + 1 ==> s[j] == t[j]
    ensures WeightedSumTo(t, n) == WeightedSumTo(s, n)
      + (DigitValue(s[k + 1]) - DigitValue(s[k])) * (Weights[k] as int - Weights[k + 1] as int)
  {
    if k + 1 < n - 1 {
      WeightedSumSwap(s, t, n - 1, k);
    } else {
      WeightedSumChange(s, t, n - 1, k);
      SwapIdentity(DigitValue(s[k]), DigitValue(s[k + 1]), Weights[k], Weights[k + 1]);
    }
  }

  /** Two numbers whose first 17 digits differ in exactly one position and
      whose last characters agree cannot both verify: the check character
      detects every single-digit error. */
  lemma SingleSubstitutionDetected(id: string, id2: string, k: nat)
    requires IsCheckable(id) && IsCheckable(id2) && k < 17
    requires id[k] != id2[k] && id[17] == id2[17]
    requires forall j :: 0 <= j < 17 && j != k ==> id[j] == id2[j]
    ensures !(CheckVerificationCode(id) && CheckVerificationCode(id2))
  {
    WeightedSumChange(id, id2, 17, k);
    var delta := DigitValue(id2[k]) - DigitValue(id[k]);
    NoZeroDivisors(delta, Weights[k]);
    if CheckVerificationCode(id) && CheckVerificationCode(id2) {
      var v := CheckValue(UpperChar(id[17]));
      SameRemainder(WeightedSumTo(id, 17) + v, WeightedSumTo(id2, 17) + v);
      assert false;
    }
  }

  /** Exchanging two different adjacent digits among the first 17 is always
      detected. */
  lemma AdjacentTranspositionDetected(id: string, id2: string, k: nat)
    requires IsCheckable(id) && IsCheckable(id2) && k + 1 < 17
    requires id[k] != id[k + 1] && id2[k] == id[k + 1] && id2[k + 1] == id[k] && id[17] == id2[17]
    requires forall j :: 0 <= j < 17 && j != k && j != k + 1 ==> id[j] == id2[j]
    ensures !(CheckVerificationCode(id) && CheckVerificationCode(id2))
  {
    WeightedSumSwap(id, id2, 17, k);
    var delta := DigitValue(id[k + 1]) - DigitValue(id[k]);
    NoZeroDivisors(delta, Weights[k] as int - Weights[k + 1] as int);
    if CheckVerificationCode(id) && CheckVerificationCode(id2) {
      var v := CheckValue(UpperChar(id[17]));
      SameRemainder(WeightedSumTo(id, 17) + v, WeightedSumTo(id2, 17) + v);
      assert false;
    }
  }
}
