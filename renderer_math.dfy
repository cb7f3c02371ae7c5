/**
 * The integer decisions inside OpenGLRenderer's transform pipeline: which rotation
 * the texture transform applies, the rotation of the viewport, which dimensions are
 * swapped for the crop rectangle and the projection, and the view's up vector.
 * The floating-point matrices themselves are not modelled.
 */
module RendererMath {
  import opened Wrappers
  import opened Platform
  import TransformUtils

  /** A 2-D vector with integer coordinates: the rounded, normalised test vector. */
  datatype Vec2 = Vec2(s: int, t: int)

  /** The RuntimeException thrown when the test vector is none of the four directions. */
  datatype TransformError = UnexpectedTestVector(s: int, t: int)

  /**
   * Where a rotation of d degrees (clockwise as drawn in the texture's s/t plane)
   * takes the test vector (0, 1).
   */
  function RotatedTestVector(d: int): Vec2
    requires IsRotationDegrees(d)
  {
    if d == 0 then Vec2(0, 1)
    else if d == 90 then Vec2(1, 0)
    else if d == 180 then Vec2(0, -1)
    else Vec2(-1, 0)
  }

  /**
   * textureRotationDegrees, from the rounded image of the test vector: the rotation
   * that produces it, or the exception when no rotation does.
   */
  function TextureRotationDegrees(v: Vec2): (r: Result<int, TransformError>)
    ensures r.Success? ==> IsRotationDegrees(r.value) && RotatedTestVector(r.value) == v
    ensures r.Failure? ==>
      r.error == UnexpectedTestVector(v.s, v.t) &&
      forall d :: IsRotationDegrees(d) ==> RotatedTestVector(d) != v
  {
    if v.s == 0 && v.t == 1 then Success(0)
    else if v.s == 1 && v.t == 0 then Success(90)
    else if v.s == 0 && v.t == -1 then Success(180)
    else if v.s == -1 && v.t == 0 then Success(270)
    else Failure(UnexpectedTestVector(v.s, v.t))
  }

  /** Reading back the test vector of a rotation gives that rotation. */
  lemma TextureRotationRoundTrip(d: int)
    requires IsRotationDegrees(d)
    ensures TextureRotationDegrees(RotatedTestVector(d)) == Success(d)
  {
  }

  /**
   * Kotlin's `% 360` on Int: division truncates, so the remainder has the sign of
   * the dividend and differs from it by a multiple of 360.
   */
  function Rem360(a: int): (r: int)
    ensures -360 < r < 360 && (a - r) % 360 == 0
    ensures a >= 0 ==> r >= 0
    ensures a <= 0 ==> r <= 0
  {
    if a >= 0 then a % 360 else -((-a) % 360)
  }

  /**
   * viewPortRotation: the clockwise angle that makes the sensor image upright in the
   * output; for legal inputs a legal rotation congruent to their sum. The sum is an
   * Int sum, so it wraps around before the remainder is taken.
   */
  function ViewPortRotation(textureRotationDegrees: Int32, surfaceRotationDegrees: Int32): (r: int)
    ensures IsRotationDegrees(textureRotationDegrees) && IsRotationDegrees(surfaceRotationDegrees) ==>
      IsRotationDegrees(r) &&
      (r == textureRotationDegrees + surfaceRotationDegrees ||
       r == textureRotationDegrees + surfaceRotationDegrees - 360)
  {
    Rem360(WrapInt(textureRotationDegrees + surfaceRotationDegrees))
  }

  /**
   * An unchecked surface rotation near the top of the Int range makes the sum wrap:
   * texture 270 and surface 2147483520 give -346, not the 270 of the true sum, so
   * neither the crop nor the projection is swapped.
   */
  lemma ViewPortRotationWraps()
    ensures ViewPortRotation(270, 2147483520) == -346
    ensures Rem360(270 + 2147483520) == 270
    ensures !IsQuarterTurn(ViewPortRotation(270, 2147483520))
  {
  }

  /** The test of lines 523 and 683: a quarter turn swaps width and height. */
  predicate IsQuarterTurn(d: int) {
    d == 90 || d == 270
  }

  /**
   * The viewport turns a quarter exactly when one of the two rotations does, and it
   * does not depend on the order of the two.
   */
  lemma ViewPortQuarterTurn(textureRotationDegrees: Int32, surfaceRotationDegrees: Int32)
    requires IsRotationDegrees(textureRotationDegrees) && IsRotationDegrees(surfaceRotationDegrees)
    ensures IsQuarterTurn(ViewPortRotation(textureRotationDegrees, surfaceRotationDegrees)) <==>
      IsQuarterTurn(textureRotationDegrees) != IsQuarterTurn(surfaceRotationDegrees)
    ensures ViewPortRotation(textureRotationDegrees, surfaceRotationDegrees) ==
      ViewPortRotation(surfaceRotationDegrees, textureRotationDegrees)
  {
  }

  /** The unchecked test agrees with TransformUtils.is90or270 wherever that one does not throw. */
  lemma QuarterTurnIs90or270(d: int)
    requires IsRotationDegrees(d)
    ensures TransformUtils.Is90or270(d) == Success(IsQuarterTurn(d))
  {
  }

  /** Width and height of a float rectangle. */
  datatype Extent = Extent(width: real, height: real) {
    function Scaled(k: real): Extent { Extent(width * k, height * k) }
  }

  function SwapIfQuarterTurn(e: Extent, rotation: int): Extent {
    if IsQuarterTurn(rotation) then Extent(e.height, e.width) else e
  }

  /**
   * The rectangle the center-crop starts from (lines 522-534): the output surface's
   * size, with width and height swapped when the viewport turns a quarter.
   */
  function CropBase(surfaceSize: Size, viewPortRotation: int): (r: Extent)
    ensures IsQuarterTurn(viewPortRotation) ==>
      r.width == surfaceSize.height as real && r.height == surfaceSize.width as real
    ensures !IsQuarterTurn(viewPortRotation) ==>
      r.width == surfaceSize.width as real && r.height == surfaceSize.height as real
  {
    SwapIfQuarterTurn(Extent(surfaceSize.width as real, surfaceSize.height as real), viewPortRotation)
  }

  /** For a surface that is not square, the crop's width and height are swapped exactly at quarter turns. */
  lemma CropSwapsExactlyAtQuarterTurns(surfaceSize: Size, viewPortRotation: int)
    requires surfaceSize.width != surfaceSize.height
    ensures IsQuarterTurn(viewPortRotation) <==>
      CropBase(surfaceSize, viewPortRotation) == Extent(surfaceSize.height as real, surfaceSize.width as real)
  {
  }

  /**
   * The extents of the orthographic projection (lines 678-686): the crop rectangle's
   * width and height, swapped when the viewport turns a quarter.
   */
  function ProjectionExtent(crop: Extent, viewPortRotation: int): (r: Extent)
    ensures IsQuarterTurn(viewPortRotation) ==> r.width == crop.height && r.height == crop.width
    ensures !IsQuarterTurn(viewPortRotation) ==> r == crop
  {
    SwapIfQuarterTurn(crop, viewPortRotation)
  }

  /**
   * The projection undoes the crop's swap: whatever uniform scale the center fit
   * applies to the crop rectangle, the projected viewport has the output surface's
   * width and height, scaled by it, so the output shows the image upright and unstretched.
   */
  lemma {:induction false} ProjectionHasSurfaceShape(surfaceSize: Size, viewPortRotation: int, fitScale: real)
    ensures ProjectionExtent(CropBase(surfaceSize, viewPortRotation).Scaled(fitScale), viewPortRotation)
      == Extent(surfaceSize.width as real, surfaceSize.height as real).Scaled(fitScale)
  {
  }

  /**
   * A portrait output surface whose viewport turns a quarter (exactly one of the
   * texture and surface rotations does) crops from a landscape rectangle: the
   * surface's size with width and height exchanged.
   */
  lemma PortraitSurfaceCropsLandscapeAtQuarterTurn(surfaceSize: Size, textureRotationDegrees: Int32, surfaceRotationDegrees: Int32)
    requires IsRotationDegrees(textureRotationDegrees) && IsRotationDegrees(surfaceRotationDegrees)
    requires IsQuarterTurn(textureRotationDegrees) != IsQuarterTurn(surfaceRotationDegrees)
    requires surfaceSize.width < surfaceSize.height
    ensures var crop := CropBase(surfaceSize, ViewPortRotation(textureRotationDegrees, surfaceRotationDegrees));
      crop == Extent(surfaceSize.height as real, surfaceSize.width as real) && crop.width > crop.height
  {
    ViewPortQuarterTurn(textureRotationDegrees, surfaceRotationDegrees);
  }

  /** isCropRectFullTexture: the crop rect is exactly the whole texture. */
  function IsCropRectFullTexture(cropRect: Rect, previewSize: Size): (r: bool)
    ensures r <==> cropRect == Rect(0, 0, previewSize.width, previewSize.height)
  {
    cropRect.left == 0 && cropRect.top == 0 &&
    cropRect.Width() == previewSize.width && cropRect.Height() == previewSize.height
  }

  /**
   * The view's "up" direction for a viewport rotation (lines 33-36 and 644-650);
   * a rotation other than the four keeps the default, the one for 0 degrees.
   */
  function ViewUpVector(viewPortRotation: int): (r: Vec2)
    ensures r.s * r.s + r.t * r.t == 1
    ensures !IsRotationDegrees(viewPortRotation) ==> r == Vec2(0, -1)
  {
    if viewPortRotation == 90 then Vec2(1, 0)
    else if viewPortRotation == 180 then Vec2(0, 1)
    else if viewPortRotation == 270 then Vec2(-1, 0)
    else Vec2(0, -1)
  }

  /**
   * The view's up vector is the texture test vector of the same rotation with its
   * vertical axis flipped: world space has y growing downwards, texture space t upwards.
   */
  lemma ViewUpIsFlippedTestVector(d: int)
    requires IsRotationDegrees(d)
    ensures ViewUpVector(d) == Vec2(RotatedTestVector(d).s, -RotatedTestVector(d).t)
  {
  }
}
