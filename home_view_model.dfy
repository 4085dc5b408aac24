/**
 * The home screen's view model: lens facing, flashlight, camera binding, the
 * preview-surface size the frame analyser keeps, and the overlays of detected faces.
 */
module Home {
  import opened Common
  import opened FaceOverlay

  /** Surface size before the analyser has replaced it. */
  const DefaultSurface: SurfaceSize := SurfaceSize(480.0, 640.0)

  /** A frame of this width, or of this height, leaves the surface size as it is. */
  const PlaceholderWidth: int := 480
  const PlaceholderHeight: int := 640

  /** Detected faces at most this wide are treated as noise. */
  const MinFaceWidth: int := 10

  /** The surface size after the analyser has seen a frame of `width` by `height`, stored as (height, width). */
  function SurfaceAfterFrame(current: SurfaceSize, width: int, height: int): (next: SurfaceSize)
    ensures width != PlaceholderWidth && height != PlaceholderHeight
            ==> next == SurfaceSize(height as real, width as real)
    ensures width == PlaceholderWidth || height == PlaceholderHeight ==> next == current
  {
    if width != PlaceholderWidth && height != PlaceholderHeight then SurfaceSize(height as real, width as real)
    else current
  }

  /** Seeing the same frame size again changes nothing. */
  lemma SurfaceAfterFrameIdempotent(current: SurfaceSize, width: int, height: int)
    ensures SurfaceAfterFrame(SurfaceAfterFrame(current, width, height), width, height)
            == SurfaceAfterFrame(current, width, height)
  {
  }

  /** The faces `getFaceOverlay` keeps: those wider than 10, in input order. */
  function Kept(faces: seq<FaceBox>): (kept: seq<FaceBox>)
    ensures |kept| <= |faces|
    ensures forall f :: f in kept ==> f in faces && f.width > MinFaceWidth
  {
    if faces == [] then []
    else (if faces[0].width > MinFaceWidth then [faces[0]] else []) + Kept(faces[1..])
  }

  /** Filtering distributes over concatenation, so the kept faces keep their relative order. */
  lemma {:induction false} KeptAppend(xs: seq<FaceBox>, ys: seq<FaceBox>)
    ensures Kept(xs + ys) == Kept(xs) + Kept(ys)
  {
    if xs == [] {
      assert xs + ys == ys;
    } else {
      assert (xs + ys)[1..] == xs[1..] + ys;
      KeptAppend(xs[1..], ys);
    }
  }

  /** Exactly the faces wider than 10 are kept. */
  lemma {:induction false} KeptExactly(faces: seq<FaceBox>, f: FaceBox)
    ensures f in Kept(faces) <==> f in faces && f.width > MinFaceWidth
  {
    if faces != [] {
      KeptExactly(faces[1..], f);
      assert f in faces <==> f == faces[0] || f in faces[1..];
    }
  }

  /** One more face is appended to the kept faces exactly when it is wider than 10. */
  lemma KeptSnoc(faces: seq<FaceBox>, i: nat)
    requires i < |faces|
    ensures Kept(faces[..i + 1])
            == Kept(faces[..i]) + if faces[i].width > MinFaceWidth then [faces[i]] else []
  {
    assert faces[..i + 1] == faces[..i] + [faces[i]];
    KeptAppend(faces[..i], [faces[i]]);
    assert [faces[i]][1..] == [];
  }

  /** When every face is wide enough, all are kept. */
  lemma {:induction false} KeptAll(faces: seq<FaceBox>)
    requires forall i :: 0 <= i < |faces| ==> faces[i].width > MinFaceWidth
    ensures Kept(faces) == faces
  {
    if faces != [] {
      assert faces[0].width > MinFaceWidth;
      assert forall i :: 0 <= i < |faces[1..]| ==> faces[1..][i] == faces[i + 1];
      KeptAll(faces[1..]);
      assert [faces[0]] + faces[1..] == faces;
    }
  }

  /** When every face is too narrow, none is kept. */
  lemma {:induction false} KeptNone(faces: seq<FaceBox>)
    requires forall i :: 0 <= i < |faces| ==> faces[i].width <= MinFaceWidth
    ensures Kept(faces) == []
  {
    if faces != [] {
      assert faces[0].width <= MinFaceWidth;
      assert forall i :: 0 <= i < |faces[1..]| ==> faces[1..][i] == faces[i + 1];
      KeptNone(faces[1..]);
    }
  }

  /** One overlay per box, in order. */
  function OverlaysOf(boxes: seq<FaceBox>, surface: SurfaceSize, lens: LensFacing, orientation: Orientation)
    : (overlays: seq<Overlay>)
    ensures |overlays| == |boxes|
    ensures forall i :: 0 <= i < |boxes| ==> overlays[i] == FaceOverlayOf(boxes[i], surface, lens, orientation)
  {
    if boxes == [] then []
    else [FaceOverlayOf(boxes[0], surface, lens, orientation)] + OverlaysOf(boxes[1..], surface, lens, orientation)
  }

  lemma {:induction false} OverlaysOfAppend(xs: seq<FaceBox>, ys: seq<FaceBox>,
                                            surface: SurfaceSize, lens: LensFacing, orientation: Orientation)
    ensures OverlaysOf(xs + ys, surface, lens, orientation)
            == OverlaysOf(xs, surface, lens, orientation) + OverlaysOf(ys, surface, lens, orientation)
  {
    if xs == [] {
      assert xs + ys == ys;
    } else {
      assert (xs + ys)[1..] == xs[1..] + ys;
      OverlaysOfAppend(xs[1..], ys, surface, lens, orientation);
    }
  }

  /** One more face adds its overlay at the end exactly when it is kept. */
  lemma KeptOverlaysSnoc(faces: seq<FaceBox>, i: nat, surface: SurfaceSize, lens: LensFacing, orientation: Orientation)
    requires i < |faces|
    ensures OverlaysOf(Kept(faces[..i + 1]), surface, lens, orientation)
            == OverlaysOf(Kept(faces[..i]), surface, lens, orientation)
               + if faces[i].width > MinFaceWidth then [FaceOverlayOf(faces[i], surface, lens, orientation)] else []
  {
    KeptSnoc(faces, i);
    var tail := if faces[i].width > MinFaceWidth then [faces[i]] else [];
    OverlaysOfAppend(Kept(faces[..i]), tail, surface, lens, orientation);
  }

  /** The errors the view model's operations throw. */
  datatype CameraError =
    | FlashOnFrontCamera      // IllegalStateException from toggleFlashLight
    | PreviewNotInitialized   // lateinit `_previewView` read before any bindPreview

  class HomeViewModel {
    var orientation: Orientation
    var previewSurfaceSize: SurfaceSize
    var flashLightState: bool
    var detectedFaces: seq<Overlay>
    var lensFacing: LensFacing
    /** `camera != null`. */
    var cameraBound: bool
    /** `cameraSelector`, recorded by the lens it requires. */
    var cameraSelector: Option<LensFacing>
    /** Whether the lateinit `_previewView` and `_lifecycleOwner` have been assigned. */
    var previewAttached: bool

    /** The front camera never has the flash on, and a bound camera always has its selector. */
    ghost predicate Valid()
      reads this
    {
      && (lensFacing == Front ==> !flashLightState)
      && (cameraBound <==> cameraSelector.Some?)
    }

    constructor ()
      ensures Valid()
      ensures orientation == Portrait && previewSurfaceSize == DefaultSurface
      ensures !flashLightState && detectedFaces == [] && lensFacing == Back
      ensures !cameraBound && cameraSelector == None && !previewAttached
    {
      orientation := Portrait;
      previewSurfaceSize := DefaultSurface;
      flashLightState := false;
      detectedFaces := [];
      lensFacing := Back;
      cameraBound := false;
      cameraSelector := None;
      previewAttached := false;
    }

    /** Binds the camera for the current lens and remembers the preview and orientation. */
    method BindPreview(newOrientation: Orientation)
      requires Valid()
      modifies this
      ensures Valid()
      ensures previewAttached && orientation == newOrientation
      ensures cameraBound && cameraSelector == Some(lensFacing)
      ensures lensFacing == old(lensFacing) && flashLightState == old(flashLightState)
      ensures previewSurfaceSize == old(previewSurfaceSize) && detectedFaces == old(detectedFaces)
    {
      previewAttached := true;
      orientation := newOrientation;
      cameraSelector := Some(lensFacing);
      cameraBound := true;
    }

    /** Unbinds a bound camera; does nothing when none is bound. */
    method UnbindPreview()
      requires Valid()
      modifies this
      ensures Valid()
      ensures !cameraBound && cameraSelector == None
      ensures !old(cameraBound) ==> unchanged(this)
      ensures lensFacing == old(lensFacing) && flashLightState == old(flashLightState)
      ensures orientation == old(orientation) && previewAttached == old(previewAttached)
      ensures previewSurfaceSize == old(previewSurfaceSize) && detectedFaces == old(detectedFaces)
    {
      if cameraBound {
        cameraBound := false;
        cameraSelector := None;
      }
    }

    /**
     * Flips the lens (turning the flash off when going to the front camera), then rebinds.
     * Rebinding reads the lateinit preview view, which throws if no preview was ever bound.
     */
    method SwitchCamera() returns (outcome: Outcome<CameraError>)
      requires Valid()
      modifies this
      ensures Valid()
      ensures old(lensFacing) == Back ==> lensFacing == Front && !flashLightState
      ensures old(lensFacing) == Front ==> lensFacing == Back && flashLightState == old(flashLightState)
      ensures outcome == (if old(previewAttached) then Pass else Fail(PreviewNotInitialized))
      ensures old(previewAttached) ==> cameraBound && cameraSelector == Some(lensFacing)
      ensures !old(previewAttached) ==> !cameraBound && cameraSelector == None
      ensures orientation == old(orientation) && previewAttached == old(previewAttached)
      ensures previewSurfaceSize == old(previewSurfaceSize) && detectedFaces == old(detectedFaces)
    {
      if lensFacing == Back {
        flashLightState := false;
        lensFacing := Front;
      } else {
        lensFacing := Back;
      }
      UnbindPreview();
      if !previewAttached {
        return Fail(PreviewNotInitialized);
      }
      BindPreview(orientation);
      outcome := Pass;
    }

    /** Toggles the flash on the back camera; throws for the front camera and changes nothing. */
    method ToggleFlashLight() returns (outcome: Outcome<CameraError>)
      requires Valid()
      modifies this
      ensures Valid()
      ensures old(lensFacing) == Back ==> outcome == Pass && flashLightState == !old(flashLightState)
      ensures old(lensFacing) == Front ==> outcome == Fail(FlashOnFrontCamera) && unchanged(this)
      ensures lensFacing == old(lensFacing) && cameraBound == old(cameraBound)
      ensures cameraSelector == old(cameraSelector) && orientation == old(orientation)
      ensures previewAttached == old(previewAttached)
      ensures previewSurfaceSize == old(previewSurfaceSize) && detectedFaces == old(detectedFaces)
    {
      if lensFacing == Back {
        flashLightState := !flashLightState;
        outcome := Pass;
      } else {
        outcome := Fail(FlashOnFrontCamera);
      }
    }

    /** The analyser's first step for each frame: update the surface size. */
    method AnalyzeFrame(width: int, height: int)
      requires Valid()
      modifies this
      ensures Valid()
      ensures previewSurfaceSize == SurfaceAfterFrame(old(previewSurfaceSize), width, height)
      ensures lensFacing == old(lensFacing) && flashLightState == old(flashLightState)
      ensures cameraBound == old(cameraBound) && cameraSelector == old(cameraSelector)
      ensures orientation == old(orientation) && previewAttached == old(previewAttached)
      ensures detectedFaces == old(detectedFaces)
    {
      previewSurfaceSize := SurfaceAfterFrame(previewSurfaceSize, width, height);
    }

    /** `getFaceOverlay(faces)`: one overlay per face wider than 10, in input order, for the current view. */
    method GetFaceOverlay(faces: seq<FaceBox>) returns (overlays: seq<Overlay>)
      ensures overlays == OverlaysOf(Kept(faces), previewSurfaceSize, lensFacing, orientation)
    {
      var surface, lens, view := previewSurfaceSize, lensFacing, orientation;
      overlays := [];
      for i := 0 to |faces|
        invariant overlays == OverlaysOf(Kept(faces[..i]), surface, lens, view)
      {
        KeptOverlaysSnoc(faces, i, surface, lens, view);
        if faces[i].width > MinFaceWidth {
          overlays := overlays + [FaceOverlayOf(faces[i], surface, lens, view)];
        }
      }
      assert faces[..|faces|] == faces;
    }

    /** The detector's success callback: publish the overlays of the detected faces. */
    method OnFacesDetected(faces: seq<FaceBox>)
      requires Valid()
      modifies this
      ensures Valid()
      ensures detectedFaces == OverlaysOf(Kept(faces), previewSurfaceSize, lensFacing, orientation)
      ensures lensFacing == old(lensFacing) && flashLightState == old(flashLightState)
      ensures cameraBound == old(cameraBound) && cameraSelector == old(cameraSelector)
      ensures orientation == old(orientation) && previewAttached == old(previewAttached)
      ensures previewSurfaceSize == old(previewSurfaceSize)
    {
      detectedFaces := GetFaceOverlay(faces);
    }
  }

  /** Switching the camera twice restores the original lens. */
  method SwitchTwice(vm: HomeViewModel)
    requires vm.Valid()
    modifies vm
    ensures vm.Valid() && vm.lensFacing == old(vm.lensFacing)
    ensures old(vm.lensFacing) == Back ==> !vm.flashLightState
  {
    var first := vm.SwitchCamera();
    var second := vm.SwitchCamera();
  }
}
