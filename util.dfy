/** `limitValue` of src/lib/util.ts: a symmetric clamp of `value` to `[-limit, limit]`
    (the prototype in src/main.tsx carries an identical copy). */
module Util {
  import opened Types

  function LimitValue(value: real, limit: real): real {
    Max(-limit, Min(limit, value))
  }

  /** For a non-negative limit the result lies in `[-limit, limit]`; a value already there is
      returned unchanged and one beyond is cut to the nearer end. A negative limit always
      yields `-limit`. */
  lemma LimitValueBounds(value: real, limit: real)
    ensures 0.0 <= limit ==> -limit <= LimitValue(value, limit) <= limit
    ensures -limit <= value <= limit ==> LimitValue(value, limit) == value
    ensures 0.0 <= limit && limit < value ==> LimitValue(value, limit) == limit
    ensures 0.0 <= limit && value < -limit ==> LimitValue(value, limit) == -limit
    ensures limit < 0.0 ==> LimitValue(value, limit) == -limit
  {
  }

  lemma LimitValueIdempotent(value: real, limit: real)
    ensures LimitValue(LimitValue(value, limit), limit) == LimitValue(value, limit)
  {
  }

  lemma LimitValueOdd(value: real, limit: real)
    requires 0.0 <= limit
    ensures LimitValue(-value, limit) == -LimitValue(value, limit)
  {
  }

  lemma LimitValueMonotone(a: real, b: real, limit: real)
    requires a <= b
    ensures LimitValue(a, limit) <= LimitValue(b, limit)
  {
  }

  /** The magnitude of a clamped value never exceeds the limit, nor the value's own magnitude. */
  lemma LimitValueMagnitude(value: real, limit: real)
    requires 0.0 <= limit
    ensures Abs(LimitValue(value, limit)) <= limit
    ensures Abs(LimitValue(value, limit)) <= Abs(value)
  {
  }
}
