/**
 * The few Android platform types the core works with, reduced to their data:
 * android.util.Size, android.graphics.Rect (integer edges), android.graphics.RectF
 * (float edges, modelled as reals) and the android.view.Surface rotation constants.
 */
module Platform {

  /** Surface.ROTATION_0 .. Surface.ROTATION_270, as the platform defines them. */
  const ROTATION_0: int := 0
  const ROTATION_90: int := 1
  const ROTATION_180: int := 2
  const ROTATION_270: int := 3

  const INT_MIN: int := -0x8000_0000
  const INT_MAX: int := 0x7fff_ffff

  /** A Java or Kotlin Int: 32-bit two's complement. */
  type Int32 = x: int | INT_MIN <= x <= INT_MAX

  /**
   * Int arithmetic wraps around: the Int congruent to x modulo 2^32, which is x
   * itself whenever x fits.
   */
  function WrapInt(x: int): (r: Int32)
    ensures (x - r) % 0x1_0000_0000 == 0
    ensures INT_MIN <= x <= INT_MAX ==> r == x
  {
    (x - INT_MIN) % 0x1_0000_0000 + INT_MIN
  }

  datatype Size = Size(width: Int32, height: Int32)

  /** android.graphics.Rect: width() is right - left, height() is bottom - top, in Int arithmetic. */
  datatype Rect = Rect(left: Int32, top: Int32, right: Int32, bottom: Int32) {
    function Width(): Int32 { WrapInt(right - left) }
    function Height(): Int32 { WrapInt(bottom - top) }
  }

  datatype RectF = RectF(left: real, top: real, right: real, bottom: real)

  /** The four rotation values the renderer accepts, in degrees. */
  predicate IsRotationDegrees(d: int) {
    d == 0 || d == 90 || d == 180 || d == 270
  }
}
