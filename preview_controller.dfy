/**
 * PreviewController: the camera-binding half of the home screen, split out of the view
 * model. It keeps its own surface size, camera and selector, and reads and writes the
 * lens facing and flash state that its view model holds.
 */
module Preview {
  import opened Common
  import opened FaceOverlay
  import opened Home

  /** The lens facing and flash state the controller's view model exposes and lets it set. */
  class LensAndFlashState {
    var lensFacing: LensFacing
    var flashLightState: bool

    constructor ()
      ensures lensFacing == Back && !flashLightState
    {
      lensFacing := Back;
      flashLightState := false;
    }
  }

  class PreviewController {
    const viewModel: LensAndFlashState
    var orientation: Orientation
    var previewSurfaceSize: SurfaceSize
    /** `camera != null`. */
    var cameraBound: bool
    /** `cameraSelector`, recorded by the lens it requires. */
    var cameraSelector: Option<LensFacing>
    /** Whether the lateinit `_previewView` and `_lifecycleOwner` have been assigned. */
    var previewAttached: bool

    /** The front camera never has the flash on, and a bound camera always has its selector. */
    ghost predicate Valid()
      reads this, viewModel
    {
      && (viewModel.lensFacing == Front ==> !viewModel.flashLightState)
      && (cameraBound <==> cameraSelector.Some?)
    }

    constructor (vm: LensAndFlashState)
      requires vm.lensFacing == Front ==> !vm.flashLightState
      ensures Valid() && viewModel == vm
      ensures orientation == Portrait && previewSurfaceSize == DefaultSurface
      ensures !cameraBound && cameraSelector == None && !previewAttached
    {
      viewModel := vm;
      orientation := Portrait;
      previewSurfaceSize := DefaultSurface;
      cameraBound := false;
      cameraSelector := None;
      previewAttached := false;
    }

    /** Binds the camera for the view model's lens and remembers the preview and orientation. */
    method BindPreview(newOrientation: Orientation)
      requires Valid()
      modifies this
      ensures Valid()
      ensures previewAttached && orientation == newOrientation
      ensures cameraBound && cameraSelector == Some(viewModel.lensFacing)
      ensures previewSurfaceSize == old(previewSurfaceSize)
    {
      previewAttached := true;
      orientation := newOrientation;
      cameraSelector := Some(viewModel.lensFacing);
      cameraBound := true;
    }

    /** Unbinds a bound camera; does nothing when none is bound. */
    method UnbindPreview()
      requires Valid()
      modifies this
      ensures Valid()
      ensures !cameraBound && cameraSelector == None
      ensures !old(cameraBound) ==> unchanged(this)
      ensures orientation == old(orientation) && previewAttached == old(previewAttached)
      ensures previewSurfaceSize == old(previewSurfaceSize)
    {
      if cameraBound {
        cameraBound := false;
        cameraSelector := None;
      }
    }

    /**
     * Back to front turns the flash off first; front to back leaves the flash alone.
     * Rebinding reads the lateinit preview view, which throws if no preview was ever bound.
     */
    method SwitchCamera() returns (outcome: Outcome<CameraError>)
      requires Valid()
      modifies this, viewModel
      ensures Valid()
      ensures old(viewModel.lensFacing) == Back ==> viewModel.lensFacing == Front && !viewModel.flashLightState
      ensures old(viewModel.lensFacing) == Front
              ==> viewModel.lensFacing == Back && viewModel.flashLightState == old(viewModel.flashLightState)
      ensures outcome == (if old(previewAttached) then Pass else Fail(PreviewNotInitialized))
      ensures old(previewAttached) ==> cameraBound && cameraSelector == Some(viewModel.lensFacing)
      ensures !old(previewAttached) ==> !cameraBound && cameraSelector == None
      ensures orientation == old(orientation) && previewAttached == old(previewAttached)
      ensures previewSurfaceSize == old(previewSurfaceSize)
    {
      if viewModel.lensFacing == Back {
        viewModel.flashLightState := false;
        viewModel.lensFacing := Front;
      } else {
        viewModel.lensFacing := Back;
      }
      UnbindPreview();
      if !previewAttached {
        return Fail(PreviewNotInitialized);
      }
      BindPreview(orientation);
      outcome := Pass;
    }

    /** Sets the flash to the negation of its state on the back camera; throws for the front camera. */
    method ToggleFlashLight() returns (outcome: Outcome<CameraError>)
      requires Valid()
      modifies viewModel
      ensures Valid()
      ensures old(viewModel.lensFacing) == Back
              ==> outcome == Pass && viewModel.flashLightState == !old(viewModel.flashLightState)
      ensures old(viewModel.lensFacing) == Front ==> outcome == Fail(FlashOnFrontCamera) && unchanged(viewModel)
      ensures viewModel.lensFacing == old(viewModel.lensFacing)
    {
      if viewModel.lensFacing == Back {
        if viewModel.flashLightState {
          viewModel.flashLightState := false;
        } else {
          viewModel.flashLightState := true;
        }
        outcome := Pass;
      } else {
        outcome := Fail(FlashOnFrontCamera);
      }
    }

    /** The analyser's first step for each frame: update the surface size. */
    method AnalyzeFrame(width: int, height: int)
      requires Valid()
      modifies this
      ensures Valid()
      ensures previewSurfaceSize == SurfaceAfterFrame(old(previewSurfaceSize), width, height)
      ensures cameraBound == old(cameraBound) && cameraSelector == old(cameraSelector)
      ensures orientation == old(orientation) && previewAttached == old(previewAttached)
    {
      previewSurfaceSize := SurfaceAfterFrame(previewSurfaceSize, width, height);
    }

    /** `getFaceOverlay(face)` for the controller's surface, the view model's lens and the bound orientation. */
    function GetFaceOverlay(face: FaceBox): (o: Overlay)
      reads this, viewModel
      ensures viewModel.lensFacing == Back
              ==> o.faceLeft == face.centerX as real - face.width as real / 2.0
      ensures viewModel.lensFacing == Front
              ==> o.faceLeft == previewSurfaceSize.first - face.centerX as real - face.width as real / 2.0
      ensures o.faceTop == face.centerY as real - face.height as real / 2.0
      ensures o.faceWidth == face.width as real && o.faceHeight == face.height as real
      ensures o.balanceCircles == BalanceCirclesOf(face, previewSurfaceSize, viewModel.lensFacing, orientation)
    {
      FaceOverlayOf(face, previewSurfaceSize, viewModel.lensFacing, orientation)
    }
  }

  /** Switching twice restores the lens; the flash is off if the first switch went to the front camera. */
  method SwitchTwice(controller: PreviewController)
    requires controller.Valid()
    modifies controller, controller.viewModel
    ensures controller.Valid()
    ensures controller.viewModel.lensFacing == old(controller.viewModel.lensFacing)
    ensures old(controller.viewModel.lensFacing) == Back ==> !controller.viewModel.flashLightState
  {
    var first := controller.SwitchCamera();
    var second := controller.SwitchCamera();
  }
}
