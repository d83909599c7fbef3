/** `MathUtils`: the Arduino-style integer range map and the conversion of a
    servo angle to a PCA9685 step count. On a 64-bit target Swift's `Int`
    is 64 bits wide; it traps on overflow, and its `/` truncates toward zero; both are written
    out here. */
module MathUtils {
  import PCA9685Registers
  import opened Arithmetic

  /** Step counts of the servo's 0 and 180 degree positions. */
  const SERVOMIN := 125
  const SERVOMAX := 575

  const INT64_MIN := -0x8000_0000_0000_0000
  const INT64_MAX := 0x7FFF_FFFF_FFFF_FFFF

  predicate IsInt64(x: int) {
    INT64_MIN <= x <= INT64_MAX
  }

  /** Swift's integer `/`: the quotient rounded toward zero. */
  function TruncDiv(a: int, b: int): int
    requires b != 0
  {
    if a >= 0 then (if b > 0 then a / b else -(a / -b))
    else (if b > 0 then -((-a) / b) else (-a) / (-b))
  }

  /** `TruncDiv` is division rounding toward zero: the remainder is smaller
      than the divisor in magnitude and is zero or has the sign of the
      dividend. */
  lemma TruncDivRemainder(a: int, b: int)
    requires b != 0
    ensures var rem := a - TruncDiv(a, b) * b;
            Abs(rem) < Abs(b) && (rem == 0 || (rem < 0 <==> a < 0))
  {
    if a >= 0 && b > 0 {
      RemainderOfPositives(a, b);
    } else if a >= 0 {
      RemainderOfPositives(a, -b);
      assert TruncDiv(a, b) * b == (a / -b) * -b;
    } else if b > 0 {
      RemainderOfPositives(-a, b);
      assert TruncDiv(a, b) * b == -(((-a) / b) * b);
    } else {
      RemainderOfPositives(-a, -b);
      assert TruncDiv(a, b) * b == -(((-a) / -b) * -b);
    }
  }

  lemma RemainderOfPositives(n: nat, d: int)
    requires d > 0
    ensures 0 <= n - (n / d) * d < d
  {
  }

  /** Every intermediate of `map` fits an `Int` and the divisor is not zero:
      the conditions under which the Swift code does not trap. */
  predicate MapDefined(value: int, minRange: int, maxRange: int, minDomain: int, maxDomain: int) {
    var diffDomain := maxDomain - minDomain;
    var diffRange := maxRange - minRange;
    && IsInt64(value) && IsInt64(minRange) && IsInt64(maxRange)
    && IsInt64(minDomain) && IsInt64(maxDomain)
    && IsInt64(diffDomain) && IsInt64(diffRange) && diffRange != 0
    && IsInt64(value - minRange) && IsInt64(diffDomain * (value - minRange))
    && IsInt64(TruncDiv(diffDomain * (value - minRange), diffRange))
    && IsInt64(minDomain + TruncDiv(diffDomain * (value - minRange), diffRange))
  }

  /** `map(value:minRange:maxRange:minDomain:maxDomain:)`: the range ends map
      to the domain ends, and on an increasing range a value inside it lands
      inside an increasing domain. */
  function Map(value: int, minRange: int, maxRange: int, minDomain: int, maxDomain: int): (r: int)
    requires MapDefined(value, minRange, maxRange, minDomain, maxDomain)
    ensures IsInt64(r)
    ensures value == minRange ==> r == minDomain
    ensures value == maxRange ==> r == maxDomain
    ensures minRange <= value <= maxRange && minDomain <= maxDomain ==> minDomain <= r <= maxDomain
  {
    var diffDomain := maxDomain - minDomain;
    var diffRange := maxRange - minRange;
    MapInside(value - minRange, diffRange, diffDomain);
    minDomain + TruncDiv(diffDomain * (value - minRange), diffRange)
  }

  /** A numerator between zero and `d * r` divided by `r` lands between zero
      and `d`. */
  lemma MapInside(x: int, r: int, d: int)
    requires r != 0
    ensures x == 0 ==> TruncDiv(d * x, r) == 0
    ensures x == r ==> TruncDiv(d * x, r) == d
    ensures 0 <= x <= r && 0 <= d ==> 0 <= TruncDiv(d * x, r) <= d
  {
    TruncDivExact(d, r);
    if 0 <= x <= r && 0 <= d {
      MulLeRight(x, r, d);
      assert x * d == d * x && r * d == d * r;
      TruncDivMono(d * x, d * r, r);
      TruncDivMono(0, d * x, r);
    }
  }

  /** Dividing an exact multiple gives the factor back, whatever the signs. */
  lemma TruncDivExact(d: int, r: int)
    requires r != 0
    ensures TruncDiv(d * r, r) == d
  {
    if r > 0 {
      if d >= 0 {
        MulDiv(d, r);
      } else {
        assert -(d * r) == (-d) * r;
        MulDiv(-d, r);
      }
    } else {
      if d <= 0 {
        assert d * r == (-d) * (-r);
        MulDiv(-d, -r);
      } else {
        assert -(d * r) == d * (-r);
        MulDiv(d, -r);
      }
    }
  }

  /** Truncating division by a positive divisor is monotone. */
  lemma TruncDivMono(a1: int, a2: int, b: int)
    requires a1 <= a2 && b > 0
    ensures TruncDiv(a1, b) <= TruncDiv(a2, b)
  {
    if a1 >= 0 {
      TruncDivMonoNonNegative(a1, a2, b);
    } else if a2 < 0 {
      TruncDivMonoNegative(a1, a2, b);
    } else {
      TruncDivMonoAcrossZero(a1, a2, b);
    }
  }

  lemma TruncDivMonoNonNegative(a1: int, a2: int, b: int)
    requires 0 <= a1 <= a2 && b > 0
    ensures TruncDiv(a1, b) <= TruncDiv(a2, b)
  {
    DivMono(a1, a2, b);
  }

  lemma TruncDivMonoNegative(a1: int, a2: int, b: int)
    requires a1 <= a2 < 0 && b > 0
    ensures TruncDiv(a1, b) <= TruncDiv(a2, b)
  {
    DivMono(-a2, -a1, b);
  }

  lemma TruncDivMonoAcrossZero(a1: int, a2: int, b: int)
    requires a1 < 0 <= a2 && b > 0
    ensures TruncDiv(a1, b) <= TruncDiv(a2, b)
  {
    DivNonNegative(-a1, b);
    DivNonNegative(a2, b);
  }

  lemma DivNonNegative(a: nat, b: int)
    requires b > 0
    ensures a / b >= 0
  {
  }

  /** `angleToPulse(angle:)`: the angle's position between 0 and 180
      degrees carried over to the step counts between `SERVOMIN` and
      `SERVOMAX`. The only way it can trap is the product `450 * angle`. */
  function AngleToPulse(angle: int): (pulse: int)
    requires IsInt64(angle) && IsInt64((SERVOMAX - SERVOMIN) * angle)
    ensures angle == 0 ==> pulse == SERVOMIN
    ensures angle == 180 ==> pulse == SERVOMAX
    ensures 0 <= angle <= 180 ==> SERVOMIN <= pulse <= SERVOMAX
  {
    AngleToPulseDefined(angle);
    Map(angle, 0, 180, SERVOMIN, SERVOMAX)
  }

  lemma AngleToPulseDefined(angle: int)
    requires IsInt64(angle) && IsInt64((SERVOMAX - SERVOMIN) * angle)
    ensures MapDefined(angle, 0, 180, SERVOMIN, SERVOMAX)
  {
    var x := (SERVOMAX - SERVOMIN) * (angle - 0);
    var q := TruncDiv(x, 180);
    TruncDivSmall(x, 180);
  }

  /** A quotient by a divisor of at least 2 is at most half the dividend
      in magnitude. */
  lemma TruncDivSmall(a: int, b: int)
    requires b >= 2
    ensures Abs(TruncDiv(a, b)) <= Abs(a) / 2
  {
    if a >= 0 {
      TruncDivSmallNonNegative(a, b);
    } else {
      TruncDivSmallNegative(a, b);
    }
  }

  lemma TruncDivSmallNonNegative(a: int, b: int)
    requires b >= 2 && a >= 0
    ensures Abs(TruncDiv(a, b)) <= Abs(a) / 2
  {
    DivLe(a, b);
    DivNonNegative(a, b);
  }

  lemma TruncDivSmallNegative(a: int, b: int)
    requires b >= 2 && a < 0
    ensures Abs(TruncDiv(a, b)) <= Abs(a) / 2
  {
    DivLe(-a, b);
    DivNonNegative(-a, b);
  }

  lemma DivLe(a: nat, b: int)
    requires b >= 2
    ensures a / b <= a / 2
  {
    DivAntitone(a, 2, b);
  }

  /** For a non-negative angle the pulse is 125 + 5a/2 rounded down: the
      factor 450/180 reduced. */
  lemma AngleToPulseNonNegative(angle: int)
    requires IsInt64(angle) && IsInt64((SERVOMAX - SERVOMIN) * angle)
    requires angle >= 0
    ensures AngleToPulse(angle) == SERVOMIN + 5 * angle / 2
  {
    var x := 450 * angle;
    assert x == 90 * (5 * angle);
    DivCancel(5 * angle, 90, 2);
  }

  /** For a negative angle the quotient rounds up toward zero, so the pulse
      is 125 minus 5|a|/2 rounded down. */
  lemma AngleToPulseNegative(angle: int)
    requires IsInt64(angle) && IsInt64((SERVOMAX - SERVOMIN) * angle)
    requires angle < 0
    ensures AngleToPulse(angle) == SERVOMIN - 5 * (-angle) / 2
  {
    var x := 450 * (-angle);
    assert x == 90 * (5 * (-angle));
    DivCancel(5 * (-angle), 90, 2);
  }

  /** The truncating map differs from floor division below zero: -1 degree
      gives 123, which the same formula with floor division does not. */
  lemma AngleToPulseMinusOne()
    ensures AngleToPulse(-1) == 123
    ensures SERVOMIN + ((SERVOMAX - SERVOMIN) * -1) / 180 != AngleToPulse(-1)
  {
    AngleToPulseNegative(-1);
  }

  /** A larger angle never gives a smaller pulse, over every angle the code
      accepts. */
  lemma AngleToPulseMonotone(a1: int, a2: int)
    requires IsInt64(a1) && IsInt64((SERVOMAX - SERVOMIN) * a1)
    requires IsInt64(a2) && IsInt64((SERVOMAX - SERVOMIN) * a2)
    requires a1 <= a2
    ensures AngleToPulse(a1) <= AngleToPulse(a2)
  {
    TruncDivMono(450 * a1, 450 * a2, 180);
  }

  /** Every angle of the servo's half turn gives a step the PCA9685 accepts. */
  lemma AngleToPulseIsStep(angle: int)
    requires 0 <= angle <= 180
    ensures PCA9685Registers.ValidStep(AngleToPulse(angle))
  {
  }
}
