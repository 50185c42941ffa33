/**
 * The two pure birth-date helpers that feed the consultation prompt: the
 * zodiac sign of a (month, day) pair and the numerological life-path number
 * of a (year, month, day) triple. Dates are plain integers; the source's
 * `Date` object and its local-time accessors are not modelled.
 */
module Esoteric {

  // The twelve sign names.
  const ACUARIO := "Acuario"
  const PISCIS := "Piscis"
  const ARIES := "Aries"
  const TAURO := "Tauro"
  const GEMINIS := "Géminis"
  const CANCER := "Cáncer"
  const LEO := "Leo"
  const VIRGO := "Virgo"
  const LIBRA := "Libra"
  const ESCORPIO := "Escorpio"
  const SAGITARIO := "Sagitario"
  const CAPRICORNIO := "Capricornio"

  /** The twelve signs, in the order their start dates fall in the year (January's first). */
  const SIGNS: seq<string> := [ACUARIO, PISCIS, ARIES, TAURO, GEMINIS, CANCER,
                               LEO, VIRGO, LIBRA, ESCORPIO, SAGITARIO, CAPRICORNIO]

  /** The answer for a month outside 1..12. */
  const UNKNOWN_SIGN := "Desconocido"

  /** The cascade of `calculateZodiacSign`; every range is closed at both ends. */
  function ZodiacSign(month: int, day: int): string {
    if (month == 1 && day >= 20) || (month == 2 && day <= 18) then ACUARIO
    else if (month == 2 && day >= 19) || (month == 3 && day <= 20) then PISCIS
    else if (month == 3 && day >= 21) || (month == 4 && day <= 19) then ARIES
    else if (month == 4 && day >= 20) || (month == 5 && day <= 20) then TAURO
    else if (month == 5 && day >= 21) || (month == 6 && day <= 20) then GEMINIS
    else if (month == 6 && day >= 21) || (month == 7 && day <= 22) then CANCER
    else if (month == 7 && day >= 23) || (month == 8 && day <= 22) then LEO
    else if (month == 8 && day >= 23) || (month == 9 && day <= 22) then VIRGO
    else if (month == 9 && day >= 23) || (month == 10 && day <= 22) then LIBRA
    else if (month == 10 && day >= 23) || (month == 11 && day <= 21) then ESCORPIO
    else if (month == 11 && day >= 22) || (month == 12 && day <= 21) then SAGITARIO
    else if (month == 12 && day >= 22) || (month == 1 && day <= 19) then CAPRICORNIO
    else UNKNOWN_SIGN
  }

  /** Every month in 1..12 gives one of the twelve signs, whatever the day; "Desconocido" comes exactly from a month outside 1..12. */
  lemma ZodiacCoversMonths(month: int, day: int)
    ensures 1 <= month <= 12 ==> ZodiacSign(month, day) in SIGNS
    ensures ZodiacSign(month, day) == UNKNOWN_SIGN <==> !(1 <= month <= 12)
  {
  }

  /** The day of `month` on which the sign SIGNS[month - 1] begins (an independent table of cusps). */
  function CuspDay(month: int): int
    requires 1 <= month <= 12
  {
    [20, 19, 21, 20, 21, 21, 23, 23, 23, 23, 22, 22][month - 1]
  }

  /**
   * Reference reading of the cascade: a date on or after its month's cusp has
   * the sign that starts in that month, and an earlier date the sign that
   * started in the previous month. It holds for every day, in range or not.
   */
  lemma ZodiacFollowsCusps(month: int, day: int)
    requires 1 <= month <= 12
    ensures ZodiacSign(month, day) ==
            if day >= CuspDay(month) then SIGNS[month - 1] else SIGNS[(month + 10) % 12]
  {
    if month <= 3 {
      ZodiacFollowsCuspsQuarter1(month, day);
    } else if month <= 6 {
      ZodiacFollowsCuspsQuarter2(month, day);
    } else if month <= 9 {
      ZodiacFollowsCuspsQuarter3(month, day);
    } else {
      ZodiacFollowsCuspsQuarter4(month, day);
    }
  }

  lemma ZodiacFollowsCuspsQuarter1(month: int, day: int)
    requires 1 <= month <= 3
    ensures ZodiacSign(month, day) ==
            if day >= CuspDay(month) then SIGNS[month - 1] else SIGNS[(month + 10) % 12]
  {
    match month
    case 1 =>
      assert CuspDay(1) == 20 && SIGNS[0] == ACUARIO && SIGNS[11] == CAPRICORNIO;
    case 2 =>
      assert CuspDay(2) == 19 && SIGNS[1] == PISCIS && SIGNS[0] == ACUARIO;
    case 3 =>
      assert CuspDay(3) == 21 && SIGNS[2] == ARIES && SIGNS[1] == PISCIS;
  }

  lemma ZodiacFollowsCuspsQuarter2(month: int, day: int)
    requires 4 <= month <= 6
    ensures ZodiacSign(month, day) ==
            if day >= CuspDay(month) then SIGNS[month - 1] else SIGNS[(month + 10) % 12]
  {
    match month
    case 4 =>
      assert CuspDay(4) == 20 && SIGNS[3] == TAURO && SIGNS[2] == ARIES;
    case 5 =>
      assert CuspDay(5) == 21 && SIGNS[4] == GEMINIS && SIGNS[3] == TAURO;
    case 6 =>
      assert CuspDay(6) == 21 && SIGNS[5] == CANCER && SIGNS[4] == GEMINIS;
  }

  lemma ZodiacFollowsCuspsQuarter3(month: int, day: int)
    requires 7 <= month <= 9
    ensures ZodiacSign(month, day) ==
            if day >= CuspDay(month) then SIGNS[month - 1] else SIGNS[(month + 10) % 12]
  {
    match month
    case 7 =>
      assert CuspDay(7) == 23 && SIGNS[6] == LEO && SIGNS[5] == CANCER;
    case 8 =>
      assert CuspDay(8) == 23 && SIGNS[7] == VIRGO && SIGNS[6] == LEO;
    case 9 =>
      assert CuspDay(9) == 23 && SIGNS[8] == LIBRA && SIGNS[7] == VIRGO;
  }

  lemma ZodiacFollowsCuspsQuarter4(month: int, day: int)
    requires 10 <= month <= 12
    ensures ZodiacSign(month, day) ==
            if day >= CuspDay(month) then SIGNS[month - 1] else SIGNS[(month + 10) % 12]
  {
    match month
    case 10 =>
      assert CuspDay(10) == 23 && SIGNS[9] == ESCORPIO && SIGNS[8] == LIBRA;
    case 11 =>
      assert CuspDay(11) == 22 && SIGNS[10] == SAGITARIO && SIGNS[9] == ESCORPIO;
    case 12 =>
      assert CuspDay(12) == 22 && SIGNS[11] == CAPRICORNIO && SIGNS[10] == SAGITARIO;
  }

  /** The start day of a sign is inclusive: the day before a cusp still has the previous sign. */
  lemma ZodiacBoundaries()
    ensures ZodiacSign(2, 18) == "Acuario" && ZodiacSign(2, 19) == "Piscis"
    ensures ZodiacSign(1, 19) == "Capricornio" && ZodiacSign(1, 20) == "Acuario"
  {
  }

  /** The master numbers, which the reduction never reduces further once it reaches them. */
  predicate IsMaster(n: int) {
    n == 11 || n == 22 || n == 33
  }

  /** The values a reduction may end on. */
  predicate IsReduced(n: int) {
    0 <= n <= 9 || IsMaster(n)
  }

  /** Sum of the decimal digits of `n`; zero for `n <= 0`, where the source's loops do not run. */
  function DigitSum(n: int): int
    decreases n
  {
    if n <= 0 then 0 else n % 10 + DigitSum(n / 10)
  }

  /** A digit sum is never negative, never exceeds its input, is smaller for two or more digits, and is positive for a positive input. */
  lemma {:induction false} DigitSumBounds(n: int)
    ensures DigitSum(n) >= 0
    ensures n >= 0 ==> DigitSum(n) <= n
    ensures n >= 10 ==> DigitSum(n) < n
    ensures n >= 1 ==> DigitSum(n) >= 1
    decreases n
  {
    if n > 0 {
      DigitSumBounds(n / 10);
    }
  }

  /** Casting out nines: a digit sum is congruent to its input modulo 9. */
  lemma {:induction false} DigitSumModNine(n: int)
    requires n >= 0
    ensures DigitSum(n) % 9 == n % 9
    decreases n
  {
    if n > 0 {
      DigitSumModNine(n / 10);
      var q, r := n / 10, n % 10;
      assert n == 9 * q + (q + r);
      ModNineShift(q, q + r);
    }
  }

  lemma ModNineShift(q: int, x: int)
    ensures (9 * q + x) % 9 == x % 9
  {
  }

  /**
   * Repeated digit summing of a sum already formed: stop at a single digit or
   * at a master number, otherwise sum the digits again.
   */
  function Settle(s: int): (r: int)
    ensures s >= 0 ==> IsReduced(r)
    ensures s >= 1 ==> r >= 1
    decreases s
  {
    if s <= 9 || IsMaster(s) then s
    else
      DigitSumBounds(s);
      Settle(DigitSum(s))
  }

  /** `sumDigits(n)`: sum the digits of `n`, then settle that sum. The input itself is never treated as a master number. */
  function Reduce(n: int): int {
    Settle(DigitSum(n))
  }

  /** The life-path number: the three reduced components, summed and settled. */
  function LifePath(year: int, month: int, day: int): (r: int)
    ensures day >= 1 && month >= 1 ==> r >= 1 && IsReduced(r)
  {
    DigitSumBounds(day);
    DigitSumBounds(month);
    DigitSumBounds(year);
    Settle(Reduce(day) + Reduce(month) + Reduce(year))
  }

  /** Settling never changes a master number, and never changes a single digit. */
  lemma SettleKeepsMaster(s: int)
    requires IsMaster(s) || 0 <= s <= 9
    ensures Settle(s) == s
  {
  }

  /** Settling preserves the residue modulo 9. */
  lemma {:induction false} SettleModNine(s: int)
    requires s >= 0
    ensures Settle(s) % 9 == s % 9
    decreases s
  {
    if !(s <= 9 || IsMaster(s)) {
      DigitSumBounds(s);
      DigitSumModNine(s);
      SettleModNine(DigitSum(s));
    }
  }

  /**
   * Reference definition: unless a master number is reached on the way, a
   * positive sum settles to its digital root 1 + (s - 1) % 9.
   */
  lemma SettleIsDigitalRoot(s: int)
    requires s >= 1
    ensures IsMaster(Settle(s)) || Settle(s) == 1 + (s - 1) % 9
  {
    SettleModNine(s);
    var r, k := Settle(s), (s - 1) % 9;
    if !IsMaster(r) {
      assert s == 9 * ((s - 1) / 9) + (k + 1);
      ModNineShift((s - 1) / 9, k + 1);
      OneToNineByResidue(r, k + 1);
    }
  }

  /** Two numbers in 1..9 with the same residue modulo 9 are equal. */
  lemma OneToNineByResidue(a: int, b: int)
    requires 1 <= a <= 9 && 1 <= b <= 9 && a % 9 == b % 9
    ensures a == b
  {
  }

  /**
   * The reduction of a positive number: a master number, or the digital root
   * 1 + (n - 1) % 9 of the number itself.
   */
  lemma ReduceIsDigitalRoot(n: int)
    requires n >= 1
    ensures IsReduced(Reduce(n)) && Reduce(n) >= 1
    ensures IsMaster(Reduce(n)) || Reduce(n) == 1 + (n - 1) % 9
  {
    var s := DigitSum(n);
    assert Reduce(n) == Settle(s);
    DigitSumBounds(n);
    assert s >= 1;
    DigitSumModNine(n);
    assert s % 9 == n % 9;
    SamePredecessorResidue(s, n);
    assert (s - 1) % 9 == (n - 1) % 9;
    SettleIsDigitalRoot(s);
  }

  /** Numbers with the same residue modulo 9 have predecessors with the same residue. */
  lemma SamePredecessorResidue(a: int, b: int)
    requires a % 9 == b % 9
    ensures (a - 1) % 9 == (b - 1) % 9
  {
    ResidueOfPredecessor(a);
    ResidueOfPredecessor(b);
  }

  /** `(a - 1) % 9` depends only on `a % 9`. */
  lemma ResidueOfPredecessor(a: int)
    ensures (a - 1) % 9 == (a % 9 - 1) % 9
  {
    assert a - 1 == 9 * (a / 9) + (a % 9 - 1);
    ModNineShift(a / 9, a % 9 - 1);
  }

  /** Master numbers count only as intermediate sums: 29 reduces to 11, but 11 itself reduces to 2. */
  lemma ReduceExamples()
    ensures Reduce(29) == 11
    ensures Reduce(11) == 2
    ensures Reduce(1993) == 22
  {
    assert DigitSum(29) == 11 by {
      assert DigitSum(2) == 2;
    }
    assert DigitSum(11) == 2 by {
      assert DigitSum(1) == 1;
    }
    assert DigitSum(1993) == 22 by {
      assert DigitSum(1) == 1;
      assert DigitSum(19) == 10;
      assert DigitSum(199) == 19;
    }
  }

  /** A master-valued component sum is the life-path number unchanged. */
  lemma LifePathKeepsMasterSum(year: int, month: int, day: int)
    requires IsMaster(Reduce(day) + Reduce(month) + Reduce(year))
    ensures LifePath(year, month, day) == Reduce(day) + Reduce(month) + Reduce(year)
  {
  }

  /** Splitting off the last decimal digit of a positive number; used by the loops below. */
  lemma LastDigit(n: int)
    requires n > 0
    ensures 0 <= n % 10 <= 9 && 0 <= n / 10
    ensures n < 10 ==> n / 10 == 0 && n % 10 == n
    ensures n >= 10 ==> n % 10 + n / 10 < n
  {
  }

  /**
   * The state machine of the `sumDigits` loop: `n` still to add, `sum` added
   * so far. Each step moves one digit; an emptied `n` with a total past 9 is
   * either a master, which stops the loop, or restarts as the new `n`.
   */
  ghost function Run(n: int, sum: int): int
    requires sum >= 0
    requires n < 0 ==> sum == 0
    decreases sum + n, n
  {
    if !(n > 0 || sum > 9) then sum
    else if n == 0 && IsMaster(sum) then sum
    else if n == 0 then (LastDigit(sum); Run(sum / 10, sum % 10))
    else (LastDigit(n); Run(n / 10, sum + n % 10))
  }

  /** The loop settles whatever is still to add plus what it has added. */
  lemma {:induction false} RunSettles(n: int, sum: int)
    requires sum >= 0
    requires n < 0 ==> sum == 0
    ensures Run(n, sum) == Settle(sum + DigitSum(n))
    decreases sum + n, n
  {
    if !(n > 0 || sum > 9) {
    } else if n == 0 && IsMaster(sum) {
    } else if n == 0 {
      LastDigit(sum);
      RunSettles(sum / 10, sum % 10);
      assert DigitSum(sum) == sum % 10 + DigitSum(sum / 10);
    } else {
      LastDigit(n);
      RunSettles(n / 10, sum + n % 10);
      assert DigitSum(n) == n % 10 + DigitSum(n / 10);
    }
  }

  /** The `sumDigits` closure: a digit-summing loop that restarts on its own sum until one digit or a master number is left. */
  method SumDigits(n0: int) returns (r: int)
    ensures r == Reduce(n0)
    ensures IsReduced(r)
  {
    RunSettles(n0, 0);
    var n, sum := n0, 0;
    while n > 0 || sum > 9
      invariant n < 0 ==> sum == 0
      invariant sum >= 0
      invariant Run(n, sum) == Run(n0, 0)
      decreases sum + n, n
    {
      if n == 0 {
        if IsMaster(sum) {
          return sum;
        }
        n := sum;
        sum := 0;
      }
      LastDigit(n);
      sum := sum + n % 10;
      n := n / 10;
    }
    r := sum;
  }

  /** `calculateLifePathNumber` on integer date parts: reduce each part, add, then reduce the total while keeping master numbers. */
  method LifePathNumber(year: int, month: int, day: int) returns (r: int)
    ensures r == LifePath(year, month, day)
    ensures day >= 1 && month >= 1 ==> r >= 1 && IsReduced(r)
  {
    var rDay := SumDigits(day);
    var rMonth := SumDigits(month);
    var rYear := SumDigits(year);
    var finalSum := rDay + rMonth + rYear;
    if IsMaster(finalSum) {
      return finalSum;
    }
    while finalSum > 9 && !IsMaster(finalSum)
      invariant finalSum >= 0
      invariant Settle(finalSum) == LifePath(year, month, day)
      decreases finalSum
    {
      var tempSum, tempN := 0, finalSum;
      while tempN > 0
        invariant tempN >= 0
        invariant tempSum + DigitSum(tempN) == DigitSum(finalSum)
        decreases tempN
      {
        tempSum := tempSum + tempN % 10;
        tempN := tempN / 10;
      }
      DigitSumBounds(finalSum);
      finalSum := tempSum;
    }
    r := finalSum;
  }
}
