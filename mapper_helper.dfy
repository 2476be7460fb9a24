/**
 * The older copy of the range helpers, kept beside MapperAndRdmHelper. Its
 * two functions compute exactly what the newer ones compute.
 */
module MapperHelper {
  import opened Numeric
  import MapperAndRdmHelper

  /** Linear remap truncated to an integer (declared as float in C#). */
  function RemapValueFromOldRangeToNewRange(value: real, oldMin: real, oldMax: real, newMin: real, newMax: real): (r: real)
    requires oldMax != oldMin
    ensures r == r.Floor as real
    ensures value == oldMin ==> r == Trunc(newMin) as real
    ensures value == oldMax ==> r == Trunc(newMax) as real
  {
    var slope := (newMax - newMin) / (oldMax - oldMin);
    var mapped := (value - oldMin) * slope + newMin;
    assert value == oldMin ==> mapped == newMin;
    assert value == oldMax ==> mapped == newMax by {
      if value == oldMax {
        assert slope * (oldMax - oldMin) == newMax - newMin;
      }
    }
    Trunc(mapped) as real
  }

  /** Symmetric narrowing of [min, max] by the truncated `span * factor`,
      applied only when the span reaches `minRequiredRangeToMap`. */
  function RemapRange(min: int, max: int, factor: real, minRequiredRangeToMap: int): (r: (int, int))
    ensures max - min < minRequiredRangeToMap ==> r == (min, max)
    ensures r.0 - min == max - r.1
  {
    if max - min >= minRequiredRangeToMap then
      var scaled := Trunc((max - min) as real * factor);
      (min + scaled, max - scaled)
    else (min, max)
  }

  /** The older helpers agree with the newer ones on every input. */
  lemma AgreesWithMapperAndRdmHelper(min: int, max: int, factor: real, minSpan: int,
                                     value: real, oldMin: real, oldMax: real, newMin: real, newMax: real)
    requires oldMax != oldMin
    ensures RemapRange(min, max, factor, minSpan) == MapperAndRdmHelper.ReduceRangeByFactor(min, max, factor, minSpan)
    ensures RemapValueFromOldRangeToNewRange(value, oldMin, oldMax, newMin, newMax)
         == MapperAndRdmHelper.RemapValueFromOldRangeToNewRange(value, oldMin, oldMax, newMin, newMax)
  {
  }
}
