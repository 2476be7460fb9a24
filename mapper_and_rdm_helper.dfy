/**
 * Range and count arithmetic used by the track generator: the truncating
 * linear remap, the symmetric narrowing of an integer range, the obstacle
 * max-count formula, and the two random helpers with their draws passed in.
 */
module MapperAndRdmHelper {
  import opened Numeric
  import opened Engine
  import GameModeController

  /** Linear remap of `value` from [oldMin, oldMax] onto [newMin, newMax],
      truncated to an integer although the declared result type is float. The
      caller must keep the old range non-degenerate (division by zero). */
  function RemapValueFromOldRangeToNewRange(value: real, oldMin: real, oldMax: real, newMin: real, newMax: real): (r: real)
    requires oldMax != oldMin
    ensures r == r.Floor as real
    ensures value == oldMin ==> r == Trunc(newMin) as real
    ensures value == oldMax ==> r == Trunc(newMax) as real
  {
    var slope := (newMax - newMin) / (oldMax - oldMin);
    var mapped := (value - oldMin) * slope + newMin;
    assert value == oldMin ==> mapped == newMin;
    assert value == oldMax ==> mapped == newMax by {
      if value == oldMax {
        DivMul(newMax - newMin, oldMax - oldMin);
      }
    }
    Trunc(mapped) as real
  }

  /** Narrows [min, max] symmetrically by `(int)((max - min) * factor)` when
      the span is at least `minRequiredRangeToMap`, else returns it as is. */
  function ReduceRangeByFactor(min: int, max: int, factor: real, minRequiredRangeToMap: int): (r: (int, int))
  {
    var difference := max - min;
    if difference >= minRequiredRangeToMap then
      var scaled := Trunc(difference as real * factor);
      (min + scaled, max - scaled)
    else (min, max)
  }

  /** Narrowed or not, both ends of the range move by the same amount, so
      the range keeps its midpoint. */
  lemma ReduceRangeByFactorCases(min: int, max: int, factor: real, minSpan: int)
    ensures var r := ReduceRangeByFactor(min, max, factor, minSpan);
      r.0 - min == max - r.1
  {
  }

  /** With a factor in [0, 0.5] the narrowed range stays inside [min, max]
      and does not invert. */
  lemma ReduceRangeByFactorStaysInside(min: int, max: int, factor: real, minSpan: int)
    requires min <= max
    requires 0.0 <= factor <= 0.5
    ensures var r := ReduceRangeByFactor(min, max, factor, minSpan);
      min <= r.0 <= r.1 <= max
  {
    var d := max - min;
    if d >= minSpan {
      var p := d as real * factor;
      assert 0.0 <= p by {
        NonNegativeProduct(d as real, factor);
      }
      assert 2.0 * p <= d as real by {
        NonNegativeProduct(d as real, 1.0 - 2.0 * factor);
        assert d as real * (1.0 - 2.0 * factor) == d as real - 2.0 * p;
      }
      var s := Trunc(p);
      assert 0 <= s && 2 * s <= d;
    }
  }

  /** The two examples of the generator's range: 1..21 narrowed by 0.4 with a
      minimum span of 5 becomes 9..13; 1..3 is too short to narrow. */
  lemma ReduceRangeByFactorExamples()
    ensures ReduceRangeByFactor(1, 21, 0.4, 5) == (9, 13)
    ensures ReduceRangeByFactor(1, 3, 0.4, 5) == (1, 3)
  {
    assert 20.0 * 0.4 == 8.0;
    assert Trunc(8.0) == 8;
  }

  /** Scales both ends of a range by `factor`, truncating each. */
  function RemapRangeByFactor(min: int, max: int, factor: real): (r: (int, int))
    ensures 0.0 <= factor && min <= max ==> r.0 <= r.1
  {
    var lo := min as real * factor;
    var hi := max as real * factor;
    assert 0.0 <= factor && min <= max ==> Trunc(lo) <= Trunc(hi) by {
      if 0.0 <= factor && min <= max {
        NonNegativeProduct((max - min) as real, factor);
        assert hi - lo == (max - min) as real * factor;
        TruncMonotone(lo, hi);
      }
    }
    (Trunc(lo), Trunc(hi))
  }

  /** `Quaternion.Euler(0, y, 0)` where y stays 0 when `Next(0, 3)` draws 0
      (one time in three) and is `Next(0, 360)` otherwise. */
  function RandomizeQuaternionY(keep: Sample, yaw: Sample): (q: Rotation)
    ensures 0 <= q.yaw < 360
    ensures Next(0, 3, keep) == 0 ==> q == Identity
    ensures Next(0, 3, keep) != 0 ==> q.yaw == Next(0, 360, yaw)
  {
    var randomY := if Next(0, 3, keep) != 0 then Next(0, 360, yaw) else 0;
    EulerY(randomY)
  }

  /** `NextDouble() * (maxValue - minValue) + minValue`: inside [min, max)
      when the range is proper, equal to `min` when it is empty, and inside
      (max, min] when the bounds are reversed. */
  function RandomizeFloat(minValue: real, maxValue: real, s: Sample): (v: real)
    ensures minValue < maxValue ==> minValue <= v < maxValue
    ensures minValue == maxValue ==> v == minValue
    ensures maxValue < minValue ==> maxValue < v <= minValue
  {
    ScaledSample(s, maxValue - minValue) + minValue
  }

  /** The tier's multiplier in the max-count formula: its enum value plus one
      (zero for GAMEOVER, one for START). */
  function ModeFactor(mode: GameModeController.EGameModes): (f: real)
    ensures 0.0 <= f <= 7.0
    ensures f == 0.0 <==> mode == GameModeController.GameOver
  {
    (1 + mode.Ordinal()) as real
  }

  /** One tenth of the ground growth scaled by density and tier multiplier. */
  function GrowthTerm(current: real, original: real, density: real, factor: real): (g: real)
    ensures current == original || factor == 0.0 ==> g == 0.0
    ensures original <= current && 0.0 <= density && 0.0 <= factor ==> 0.0 <= g
  {
    var g := (current - original) * density * factor * 0.1;
    assert original <= current && 0.0 <= density && 0.0 <= factor ==> 0.0 <= g by {
      if original <= current && 0.0 <= density && 0.0 <= factor {
        NonNegativeProduct(current - original, density);
        NonNegativeProduct((current - original) * density, factor);
        NonNegativeProduct((current - original) * density * factor, 0.1);
      }
    }
    g
  }

  /** The obstacle max-count formula: a default plus one tenth of the growth
      of the ground beyond its original length, scaled by the density and by
      the tier's enum value plus one, truncated. */
  function CalculateObstacleMaxSpawnAmount(defaultValue: int, currentGroundScaleZ: real, originalGroundScaleZ: real,
                                           obstacleDensity: real, currentGameMode: GameModeController.EGameModes): (n: int)
    ensures currentGroundScaleZ == originalGroundScaleZ || currentGameMode == GameModeController.GameOver ==> n == defaultValue
    ensures originalGroundScaleZ <= currentGroundScaleZ && 0.0 <= obstacleDensity ==> defaultValue <= n
  {
    defaultValue + Trunc(GrowthTerm(currentGroundScaleZ, originalGroundScaleZ, obstacleDensity, ModeFactor(currentGameMode)))
  }

  /** The growth term grows with the ground for non-negative density and
      multiplier, and vanishes when the ground has its original length. */
  lemma GrowthTermMonotone(z1: real, z2: real, original: real, density: real, factor: real)
    requires z1 <= z2
    requires 0.0 <= density && 0.0 <= factor
    ensures GrowthTerm(z1, original, density, factor) <= GrowthTerm(z2, original, density, factor)
  {
    MulMonotone(z1 - original, z2 - original, density);
    MulMonotone((z1 - original) * density, (z2 - original) * density, factor);
    MulMonotone((z1 - original) * density * factor, (z2 - original) * density * factor, 0.1);
  }

  /** Unchanged ground yields exactly the default; ground at least as long as
      the original with a non-negative density yields at least the default. */
  lemma ObstacleMaxSpawnAmountBase(defaultValue: int, current: real, original: real, density: real, mode: GameModeController.EGameModes)
    ensures current == original ==> CalculateObstacleMaxSpawnAmount(defaultValue, current, original, density, mode) == defaultValue
    ensures current >= original && density >= 0.0 ==>
      CalculateObstacleMaxSpawnAmount(defaultValue, current, original, density, mode) >= defaultValue
  {
    assert GrowthTerm(original, original, density, ModeFactor(mode)) == 0.0;
    if current >= original && density >= 0.0 {
      ObstacleMaxSpawnAmountMonotone(defaultValue, original, current, original, density, mode);
    }
  }

  /** With a non-negative density the max count never decreases as the ground
      grows, in every tier (GAMEOVER contributes a zero factor). */
  lemma ObstacleMaxSpawnAmountMonotone(defaultValue: int, z1: real, z2: real, original: real,
                                       density: real, mode: GameModeController.EGameModes)
    requires z1 <= z2
    requires density >= 0.0
    ensures CalculateObstacleMaxSpawnAmount(defaultValue, z1, original, density, mode)
         <= CalculateObstacleMaxSpawnAmount(defaultValue, z2, original, density, mode)
  {
    var f := ModeFactor(mode);
    GrowthTermMonotone(z1, z2, original, density, f);
    TruncMonotone(GrowthTerm(z1, original, density, f), GrowthTerm(z2, original, density, f));
  }
}
