/**
 * Setting and reading the system clock. The milliseconds of a date are multiplied by 1000 as a
 * double, sent as a 64-bit integer of microseconds, and divided by 1000 as a BigInt on the way back.
 */
module TimeDate {
  import opened Wrappers

  /** The largest ECMAScript time value (section 21.4.1.1 of ECMA-262). */
  const MAX_TIME := 8_640_000_000_000_000

  const TWO_53 := 9_007_199_254_740_992

  const TWO_56 := 72_057_594_037_927_936

  const INT64_MAX := 0x7fff_ffff_ffff_ffff

  function Pow2(k: nat): (p: nat)
    ensures p > 0
  {
    if k == 0 then 1 else 2 * Pow2(k - 1)
  }

  // ------------------------------------------------------------------ doubles

  /** m times 2^k, with at most 53 significant bits. */
  predicate Represents(m: int, k: nat, y: int)
  {
    -TWO_53 < m < TWO_53 && y == m * Pow2(k)
  }

  /** The integers a double can hold. */
  ghost predicate IsDouble(y: int)
  {
    exists m: int, k: nat :: Represents(m, k, y)
  }

  /** The number of low bits that do not fit. */
  function Excess(x: nat): (k: nat)
    ensures x < TWO_53 * Pow2(k)
    ensures k > 0 ==> TWO_53 * Pow2(k - 1) <= x
    decreases x
  {
    if x < TWO_53 then 0 else
      var k := Excess(x / 2) + 1;
      assert k > 1 ==> Pow2(k - 1) == 2 * Pow2(k - 2);
      k
  }

  /** x rounded to a multiple of `ulp`, ties to an even multiple. */
  function RoundTo(x: nat, ulp: nat): nat
    requires ulp > 0
  {
    if GoesDown(x, ulp) then x / ulp * ulp else (x / ulp + 1) * ulp
  }

  predicate GoesDown(x: nat, ulp: nat)
    requires ulp > 0
  {
    2 * (x % ulp) < ulp || (2 * (x % ulp) == ulp && (x / ulp) % 2 == 0)
  }

  /** IEEE 754 round-to-nearest, ties to even, on non-negative integers. */
  function ToDouble(x: nat): nat
  {
    RoundTo(x, Pow2(Excess(x)))
  }

  function Distance(a: int, b: int): nat
  {
    if a < b then b - a else a - b
  }

  lemma Times(a: int, b: int, c: nat)
    requires a <= b
    ensures a * c <= b * c
  {
  }

  lemma {:induction false} Pow2Splits(a: nat, b: nat)
    ensures Pow2(a + b) == Pow2(a) * Pow2(b)
  {
    if a > 0 {
      Pow2Splits(a - 1, b);
      assert Pow2(a) * Pow2(b) == 2 * (Pow2(a - 1) * Pow2(b));
    }
  }

  lemma {:induction false} Pow2Grows(a: nat, b: nat)
    requires a <= b
    ensures Pow2(a) <= Pow2(b)
  {
    if a < b { Pow2Grows(a, b - 1); }
  }

  /** Where rounding lands: the multiple below or the one above, at most half a step away. */
  lemma RoundLands(x: nat, ulp: nat)
    requires ulp > 0
    ensures var q, r, d := x / ulp, x % ulp, RoundTo(x, ulp);
            && q * ulp + r == x && (q + 1) * ulp == x - r + ulp
            && d == (if GoesDown(x, ulp) then x - r else x - r + ulp)
            && 2 * Distance(x, d) <= ulp
  {
    var q, r := x / ulp, x % ulp;
    assert x == q * ulp + r;
    assert (q + 1) * ulp == q * ulp + ulp;
  }

  /** Half way between two multiples it is the even one. */
  lemma TiesGoToEven(x: nat, ulp: nat)
    requires ulp > 0 && 2 * (x % ulp) == ulp
    ensures exists k: nat :: k % 2 == 0 && RoundTo(x, ulp) == k * ulp
  {
    var q := x / ulp;
    assert RoundTo(x, ulp) == (if q % 2 == 0 then q else q + 1) * ulp;
  }

  lemma NearestMultiple(x: nat, ulp: nat, n: int)
    requires ulp > 0
    ensures Distance(x, RoundTo(x, ulp)) <= Distance(x, n * ulp)
  {
    RoundLands(x, ulp);
    hide RoundTo;
    var q := x / ulp;
    if n <= q {
      Times(n, q, ulp);
    } else {
      Times(q + 1, n, ulp);
    }
  }

  lemma RoundedIsDouble(x: nat)
    ensures IsDouble(ToDouble(x))
  {
    var k := Excess(x);
    var ulp := Pow2(k);
    var q := x / ulp;
    RoundLands(x, ulp);
    assert q < TWO_53 by { if q >= TWO_53 { Times(TWO_53, q, ulp); } }
    if GoesDown(x, ulp) {
      assert Represents(q, k, ToDouble(x));
    } else if q + 1 < TWO_53 {
      assert Represents(q + 1, k, ToDouble(x));
    } else {
      assert ToDouble(x) == TWO_53 * ulp == (TWO_53 / 2) * (2 * ulp);
      assert Represents(TWO_53 / 2, k + 1, ToDouble(x));
    }
  }

  /** A double with finer bits than `k` lies below every number with `k` bits in excess. */
  lemma FinerIsSmaller(m: int, j: nat, k: nat)
    requires m < TWO_53 && j < k
    ensures m * Pow2(j) <= TWO_53 * Pow2(k - 1) == (TWO_53 / 2) * Pow2(k)
  {
    Pow2Grows(j, k - 1);
    Times(m, TWO_53, Pow2(j));
    Times(Pow2(j), Pow2(k - 1), TWO_53);
  }

  /** Partner of ToDouble: the result is a double, and no double is nearer. */
  lemma ToDoubleIsNearest(x: nat, y: int)
    ensures IsDouble(ToDouble(x))
    ensures IsDouble(y) ==> Distance(x, ToDouble(x)) <= Distance(x, y)
  {
    RoundedIsDouble(x);
    if IsDouble(y) {
      var m: int, j: nat :| Represents(m, j, y);
      var k := Excess(x);
      if j >= k {
        Pow2Splits(j - k, k);
        MulAssoc(m, Pow2(j - k), Pow2(k));
        NearestMultiple(x, Pow2(k), m * Pow2(j - k));
      } else {
        FinerIsSmaller(m, j, k);
        NearestMultiple(x, Pow2(k), TWO_53 / 2);
      }
      hide RoundTo;
    }
  }

  lemma MulAssoc(a: int, b: int, c: int)
    ensures a * (b * c) == (a * b) * c
  {
  }

  // ------------------------------------------------------------------ the clock

  class SystemClock {
    var timeUSec: int

    constructor ()
      ensures timeUSec == 0
    {
      timeUSec := 0;
    }

    /**
     * BigInt of the double product, which fits the signed 64-bit integer on the bus for every valid
     * date; an invalid date has no time value, and its product does not convert.
     */
    method SetSystemDate(time: Option<int>) returns (ok: bool)
      requires time.Some? ==> IsTimeValue(time.value)
      modifies this
      ensures ok <==> time.Some?
      ensures !ok ==> timeUSec == old(timeUSec)
      ensures ok ==> timeUSec == Microseconds(time.value)
      ensures ok ==> -INT64_MAX <= timeUSec <= INT64_MAX && Distance(timeUSec, 1000 * time.value) <= 512
    {
      if time.None? {
        return false;
      }
      timeUSec := Microseconds(time.value);
      MicrosecondsAreClose(time.value);
      ok := true;
    }

    /** BigInt division drops the fraction: the whole milliseconds, towards zero. */
    method GetDateTimeInfo() returns (time: int)
      ensures timeUSec >= 0 ==> 1000 * time <= timeUSec < 1000 * time + 1000
      ensures timeUSec <= 0 ==> 1000 * time - 1000 < timeUSec <= 1000 * time
    {
      time := Truncated(timeUSec);
    }
  }

  function Product(time: nat): nat
  {
    ToDouble(1000 * time)
  }

  /** The double product of a date; rounding to nearest is symmetric. */
  function Microseconds(time: int): int
  {
    if time >= 0 then Product(time) else
      var m: nat := 0 - time;
      0 - Product(m)
  }

  function Truncated(usec: int): int
  {
    if usec >= 0 then usec / 1000 else -(-usec / 1000)
  }

  predicate IsTimeValue(time: int)
  {
    -MAX_TIME <= time <= MAX_TIME
  }

  /** Setting a date and reading it back at the same instant. */
  method SetThenGet(clock: SystemClock, time: int) returns (read: int)
    requires IsTimeValue(time)
    modifies clock
    ensures read == if LosesAMillisecond(Distance(time, 0)) then (if time > 0 then time - 1 else time + 1) else time
  {
    var _ := clock.SetSystemDate(Some(time));
    read := clock.GetDateTimeInfo();
    ReadBackIff(Distance(time, 0));
    TimeErrorBound(Distance(time, 0));
    hide ToDouble, LosesAMillisecond;
  }

  lemma MicrosecondsAreClose(time: int)
    requires IsTimeValue(time)
    ensures -INT64_MAX <= Microseconds(time) <= INT64_MAX && Distance(Microseconds(time), 1000 * time) <= 512
  {
    TimeErrorBound(Distance(time, 0));
    hide ToDouble, LosesAMillisecond;
  }

  /** The product rounds down; a caller can compute this from the date alone. */
  predicate LosesAMillisecond(time: nat)
  {
    var x := 1000 * time;
    var ulp := Pow2(Excess(x));
    x % ulp > 0 && GoesDown(x, ulp)
  }

  /** Excess bits from the range a number is in. */
  lemma ExcessInRange(x: nat, k: nat)
    requires x < TWO_53 * Pow2(k)
    ensures Excess(x) <= k
    ensures k > 0 && TWO_53 * Pow2(k - 1) <= x ==> Excess(x) == k
  {
    var e := Excess(x);
    if e > k {
      ScaledGrows(k, e - 1);
    } else if e < k {
      ScaledGrows(e, k - 1);
    }
  }

  lemma ScaledGrows(a: nat, b: nat)
    requires a <= b
    ensures TWO_53 * Pow2(a) <= TWO_53 * Pow2(b)
  {
    Pow2Grows(a, b);
  }

  lemma SmallPowers()
    ensures Pow2(0) == 1 && Pow2(1) == 2 && Pow2(2) == 4 && Pow2(3) == 8 && Pow2(4) == 16 && Pow2(10) == 1024
  {
    assert Pow2(2) == 4 && Pow2(4) == 16 && Pow2(6) == 64 && Pow2(8) == 256;
  }

  lemma TimeErrorBound(time: nat)
    requires time <= MAX_TIME
    ensures Distance(1000 * time, ToDouble(1000 * time)) <= 512
    ensures 0 <= ToDouble(1000 * time) <= INT64_MAX
    ensures ToDouble(1000 * time) < 1000 * time <==> LosesAMillisecond(time)
  {
    var x := 1000 * time;
    SmallPowers();
    ExcessInRange(x, 10);
    Pow2Grows(Excess(x), 10);
    RoundLands(x, Pow2(Excess(x)));
    hide RoundTo;
  }

  /**
   * Main result, for every non-negative time value: what is set reads back exactly unless the product
   * rounds down, and is then one millisecond short.
   */
  lemma ReadBackIff(time: nat)
    requires time <= MAX_TIME
    ensures ToDouble(1000 * time) / 1000 == if LosesAMillisecond(time) then time - 1 else time
  {
    TimeErrorBound(time);
    hide ToDouble, LosesAMillisecond;
  }

  /** Up to 2^56 microseconds, in the year 4253, nothing is lost: 1000 is a multiple of 8. */
  lemma ExactUpTo56Bits(time: nat)
    requires 1000 * time < TWO_56
    ensures ToDouble(1000 * time) == 1000 * time && !LosesAMillisecond(time)
  {
    var x := 1000 * time;
    SmallPowers();
    ExcessInRange(x, 3);
    var ulp := Pow2(Excess(x));
    assert ulp == 1 || ulp == 2 || ulp == 4 || ulp == 8;
    assert x % ulp == 0;
    RoundLands(x, ulp);
    hide RoundTo, Excess;
  }

  const LOSSY_TIME := 72_057_594_037_929

  /** A date just above that bound comes back one millisecond short. */
  lemma MillisecondLost()
    ensures LosesAMillisecond(LOSSY_TIME) && ToDouble(1000 * LOSSY_TIME) / 1000 == LOSSY_TIME - 1
  {
    SmallPowers();
    ExcessInRange(1000 * LOSSY_TIME, 4);
    hide Excess;
    assert LosesAMillisecond(LOSSY_TIME);
    ReadBackIff(LOSSY_TIME);
  }
}
