/**
 * Overlay geometry drawn over the camera preview for each detected face: the face
 * rectangle and two "balance circles" that show which way the face should move.
 * The same rules appear in FaceOverlayController, HomeViewModel and PreviewController;
 * they are defined once here. Kotlin `Float` arithmetic is modelled on `real`.
 */
module FaceOverlay {

  datatype LensFacing = Front | Back

  /** `ORIENTATION_PORTRAIT`, or any other orientation code. */
  datatype Orientation = Portrait | Landscape

  datatype FaceGravity = Left | Right | Top | Bottom

  /** A detected face's bounding box as the overlay reads it: `centerX()`, `centerY()`, `width()`, `height()`. */
  datatype FaceBox = FaceBox(centerX: int, centerY: int, width: int, height: int)

  /** The preview surface size pair `(first, second)`. */
  datatype SurfaceSize = SurfaceSize(first: real, second: real)

  datatype BalanceCircles = BalanceCircles(
    horizontalX: real, horizontalY: real,
    verticalX: real, verticalY: real)

  datatype Overlay = Overlay(
    faceLeft: real, faceTop: real, faceWidth: real, faceHeight: real,
    balanceCircles: BalanceCircles)

  /** Distance of a balance circle from the edge it is drawn near. */
  const CircleInset: real := 50.0

  /** The overlay's horizontal extent: the first dimension in portrait, the second otherwise. */
  function OverlayWidth(surface: SurfaceSize, orientation: Orientation): real
  {
    if orientation == Portrait then surface.first else surface.second
  }

  /** The overlay's vertical extent: the second dimension in portrait, the first otherwise. */
  function OverlayHeight(surface: SurfaceSize, orientation: Orientation): real
  {
    if orientation == Portrait then surface.second else surface.first
  }

  /** `isImageFlipped()`: front-camera frames are mirrored on screen. */
  predicate IsImageFlipped(lens: LensFacing)
  {
    lens == Front
  }

  /** Left edge of the face rectangle; mirrored about `surface.first` for the front camera. */
  function OverlayLeft(box: FaceBox, surface: SurfaceSize, lens: LensFacing): real
  {
    if IsImageFlipped(lens) then surface.first - box.centerX as real - box.width as real / 2.0
    else box.centerX as real - box.width as real / 2.0
  }

  function OverlayTop(box: FaceBox): real
  {
    box.centerY as real - box.height as real / 2.0
  }

  /** Which side of the overlay the face leans to; ties go to `Right` for both cameras. */
  function HorizontalGravity(box: FaceBox, overlayWidth: real, lens: LensFacing): (g: FaceGravity)
    ensures g == Left || g == Right
    // The back camera sees a face at or right of the mid-line as leaning right; the mirrored front camera,
    // a face at or left of it.
    ensures lens == Back ==> (g == Right <==> box.centerX as real >= overlayWidth / 2.0)
    ensures lens == Front ==> (g == Right <==> box.centerX as real <= overlayWidth / 2.0)
  {
    if IsImageFlipped(lens) then
      if box.centerX as real <= overlayWidth / 2.0 then Right else Left
    else
      if box.centerX as real >= overlayWidth / 2.0 then Right else Left
  }

  /** Whether the face is in the lower or upper half; ties go to `Bottom`. */
  function VerticalGravity(box: FaceBox, overlayHeight: real): (g: FaceGravity)
    ensures g == Top || g == Bottom
    ensures g == Bottom <==> box.centerY as real >= overlayHeight / 2.0
  {
    if box.centerY as real >= overlayHeight / 2.0 then Bottom else Top
  }

  function BalanceCirclesOf(box: FaceBox, surface: SurfaceSize, lens: LensFacing, orientation: Orientation): BalanceCircles
  {
    var width := OverlayWidth(surface, orientation);
    var height := OverlayHeight(surface, orientation);
    BalanceCircles(
      horizontalX := if HorizontalGravity(box, width, lens) == Left then width - CircleInset else CircleInset,
      horizontalY := height / 2.0,
      verticalX := width / 2.0,
      verticalY := if VerticalGravity(box, height) == Top then height - CircleInset else CircleInset)
  }

  /** `getFaceOverlay(face)`: the face rectangle and the balance circles for one face. */
  function FaceOverlayOf(box: FaceBox, surface: SurfaceSize, lens: LensFacing, orientation: Orientation): (o: Overlay)
    // The rectangle keeps the box's size and is centred on the box's centre, mirrored for the front camera.
    ensures o.faceWidth == box.width as real && o.faceHeight == box.height as real
    ensures o.faceTop + o.faceHeight / 2.0 == box.centerY as real
    ensures lens == Back ==> o.faceLeft + o.faceWidth / 2.0 == box.centerX as real
    ensures lens == Front ==> o.faceLeft + o.faceWidth / 2.0 == surface.first - box.centerX as real
    // The circles sit on the overlay's mid-lines, 50 units from the edge the face is away from.
    ensures o.balanceCircles.horizontalY == OverlayHeight(surface, orientation) / 2.0
    ensures o.balanceCircles.verticalX == OverlayWidth(surface, orientation) / 2.0
    ensures o.balanceCircles.horizontalX in {CircleInset, OverlayWidth(surface, orientation) - CircleInset}
    ensures o.balanceCircles.horizontalX
            == if HorizontalGravity(box, OverlayWidth(surface, orientation), lens) == Left
               then OverlayWidth(surface, orientation) - CircleInset else CircleInset
    ensures o.balanceCircles.verticalY in {CircleInset, OverlayHeight(surface, orientation) - CircleInset}
    ensures o.balanceCircles.verticalY
            == if VerticalGravity(box, OverlayHeight(surface, orientation)) == Top
               then OverlayHeight(surface, orientation) - CircleInset else CircleInset
  {
    Overlay(
      faceLeft := OverlayLeft(box, surface, lens),
      faceTop := OverlayTop(box),
      faceWidth := box.width as real,
      faceHeight := box.height as real,
      balanceCircles := BalanceCirclesOf(box, surface, lens, orientation))
  }

  /** The front-camera rectangle is the back-camera one reflected about `surface.first`, in every orientation. */
  lemma MirrorReflection(box: FaceBox, surface: SurfaceSize, orientation: Orientation, other: Orientation)
    ensures FaceOverlayOf(box, surface, Front, orientation).faceLeft
            + FaceOverlayOf(box, surface, Back, orientation).faceLeft + box.width as real == surface.first
    ensures FaceOverlayOf(box, surface, Front, orientation).faceLeft
            == FaceOverlayOf(box, surface, Front, other).faceLeft
  {
  }

  /** Top, width and height depend on the box alone. */
  lemma RectangleIndependentOfView(box: FaceBox, s1: SurfaceSize, l1: LensFacing, o1: Orientation,
                                   s2: SurfaceSize, l2: LensFacing, o2: Orientation)
    ensures var a, b := FaceOverlayOf(box, s1, l1, o1), FaceOverlayOf(box, s2, l2, o2);
            a.faceTop == b.faceTop && a.faceWidth == b.faceWidth && a.faceHeight == b.faceHeight
  {
  }

  /** A face centred exactly on the overlay's vertical mid-line leans `Right` whichever camera is used. */
  lemma HorizontalTieGoesRight(box: FaceBox, overlayWidth: real)
    requires box.centerX as real == overlayWidth / 2.0
    ensures HorizontalGravity(box, overlayWidth, Front) == Right
    ensures HorizontalGravity(box, overlayWidth, Back) == Right
  {
  }

  /** Off the mid-line, the two cameras see the face on opposite sides. */
  lemma HorizontalGravityMirrored(box: FaceBox, overlayWidth: real)
    requires box.centerX as real != overlayWidth / 2.0
    ensures HorizontalGravity(box, overlayWidth, Front) != HorizontalGravity(box, overlayWidth, Back)
  {
  }

  /** Each circle is 50 units from the edge opposite the face's gravity, or on a mid-line. */
  lemma CirclesFollowGravity(box: FaceBox, surface: SurfaceSize, lens: LensFacing, orientation: Orientation)
    ensures var c, w, h := BalanceCirclesOf(box, surface, lens, orientation),
                           OverlayWidth(surface, orientation), OverlayHeight(surface, orientation);
            && (HorizontalGravity(box, w, lens) == Left ==> c.horizontalX == w - 50.0)
            && (HorizontalGravity(box, w, lens) == Right ==> c.horizontalX == 50.0)
            && (VerticalGravity(box, h) == Top ==> c.verticalY == h - 50.0)
            && (VerticalGravity(box, h) == Bottom ==> c.verticalY == 50.0)
            && c.horizontalY == h / 2.0 && c.verticalX == w / 2.0
  {
  }

  /**
   * Off the vertical mid-line, the horizontal circle is drawn 50 units from the edge the face is farther
   * from: for the back camera a face right of the mid-line puts it near the left edge, one left of it near
   * the right edge, and the mirrored front camera does the opposite.
   */
  lemma HorizontalCircleSide(box: FaceBox, surface: SurfaceSize, orientation: Orientation)
    ensures var w := OverlayWidth(surface, orientation);
            && (box.centerX as real > w / 2.0 ==>
                  BalanceCirclesOf(box, surface, Back, orientation).horizontalX == 50.0
                  && BalanceCirclesOf(box, surface, Front, orientation).horizontalX == w - 50.0)
            && (box.centerX as real < w / 2.0 ==>
                  BalanceCirclesOf(box, surface, Back, orientation).horizontalX == w - 50.0
                  && BalanceCirclesOf(box, surface, Front, orientation).horizontalX == 50.0)
            && (box.centerX as real == w / 2.0 ==>
                  BalanceCirclesOf(box, surface, Back, orientation).horizontalX == 50.0
                  && BalanceCirclesOf(box, surface, Front, orientation).horizontalX == 50.0)
  {
  }

  /** The vertical circle ignores the lens: the face's lower half (tie included) puts it 50 units from the top edge. */
  lemma VerticalCircleIgnoresLens(box: FaceBox, surface: SurfaceSize, orientation: Orientation)
    ensures BalanceCirclesOf(box, surface, Front, orientation).verticalY
            == BalanceCirclesOf(box, surface, Back, orientation).verticalY
    ensures box.centerY as real >= OverlayHeight(surface, orientation) / 2.0
            <==> VerticalGravity(box, OverlayHeight(surface, orientation)) == Bottom
  {
  }

  /** The circles in landscape over `(a, b)` are the circles in portrait over `(b, a)`. */
  lemma LandscapeIsSwappedPortrait(box: FaceBox, a: real, b: real, lens: LensFacing)
    ensures BalanceCirclesOf(box, SurfaceSize(a, b), lens, Landscape)
            == BalanceCirclesOf(box, SurfaceSize(b, a), lens, Portrait)
  {
  }
}
