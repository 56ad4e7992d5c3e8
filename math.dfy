/** Numeric helpers of the renderer (src/utils/math.ts); numbers are reals, NaN is not modelled. */
module MathUtils {
  import opened Linear

  /**
   * `MAT4x4_IDENTITY_MATRIX`: one matrix object created at load time and
   * shared by every importer. Nothing makes it read-only, so a write
   * through it changes what every later reader sees.
   */
  class SharedIdentityMatrix {
    var value: Mat

    constructor()
      ensures value == Identity
    {
      value := Identity;
    }
  }

  function Min(a: real, b: real): real { if a <= b then a else b }

  function Max(a: real, b: real): real { if a >= b then a else b }

  /** `clamp(num, min, max)`: `Math.min(Math.max(num, min), max)`. */
  function Clamp(num: real, min: real, max: real): (r: real)
    ensures min <= max ==> min <= r <= max
    ensures min <= num <= max ==> r == num
    ensures num < min <= max ==> r == min
    ensures min <= max < num ==> r == max
    ensures max < min ==> r == max
  {
    Min(Max(num, min), max)
  }

  /** Clamping a second time changes nothing, whatever the bounds. */
  lemma ClampIdempotent(num: real, min: real, max: real)
    ensures Clamp(Clamp(num, min, max), min, max) == Clamp(num, min, max)
  {
  }

  /** The result is always one of the three arguments. */
  lemma ClampPicksAnArgument(num: real, min: real, max: real)
    ensures Clamp(num, min, max) in {num, min, max}
  {
  }

  /** Clamping preserves the order of its inputs. */
  lemma ClampMonotone(a: real, b: real, min: real, max: real)
    requires a <= b
    ensures Clamp(a, min, max) <= Clamp(b, min, max)
  {
  }
}
