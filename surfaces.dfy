/** Surfaces.toSurfaceRotationDegrees: the rotation enum of a display, as degrees. */
module Surfaces {
  import opened Wrappers
  import opened Platform

  const ROTATION_0_DEG: int := 0
  const ROTATION_90_DEG: int := 90
  const ROTATION_180_DEG: int := 180
  const ROTATION_270_DEG: int := 270

  /** The exception thrown for any other input. */
  datatype UnsupportedOperation = UnsupportedRotationEnum(rotationEnum: int)

  /** True of the values annotated @RotationEnum. */
  predicate IsRotationEnum(e: int) {
    e == ROTATION_0 || e == ROTATION_90 || e == ROTATION_180 || e == ROTATION_270
  }

  /**
   * Maps a rotation enum to its degrees; every result is one of the four
   * @RotationDegrees constants, and anything but the four enum values throws.
   */
  function ToSurfaceRotationDegrees(rotationEnum: int): (r: Result<int, UnsupportedOperation>)
    ensures r.Success? <==> IsRotationEnum(rotationEnum)
    ensures r.Success? ==> IsRotationDegrees(r.value) && r.value == 90 * rotationEnum
    ensures r.Failure? ==> r.error == UnsupportedRotationEnum(rotationEnum)
  {
    if rotationEnum == ROTATION_0 then Success(ROTATION_0_DEG)
    else if rotationEnum == ROTATION_90 then Success(ROTATION_90_DEG)
    else if rotationEnum == ROTATION_180 then Success(ROTATION_180_DEG)
    else if rotationEnum == ROTATION_270 then Success(ROTATION_270_DEG)
    else Failure(UnsupportedRotationEnum(rotationEnum))
  }

  /** Distinct enum values give distinct degrees, and every rotation value is reached. */
  lemma ToSurfaceRotationDegreesBijective(e1: int, e2: int, d: int)
    requires IsRotationEnum(e1) && IsRotationEnum(e2)
    ensures e1 != e2 ==> ToSurfaceRotationDegrees(e1) != ToSurfaceRotationDegrees(e2)
    ensures IsRotationDegrees(d) ==> exists e :: IsRotationEnum(e) && ToSurfaceRotationDegrees(e) == Success(d)
  {
    if IsRotationDegrees(d) {
      assert ToSurfaceRotationDegrees(d / 90) == Success(d);
    }
  }
}
