# Face: verified model of the camera-side logic

A Dafny model of the logic in the Android face app's camera pipeline and screens:

- **Face-bitmap extraction** (`FaceEmbeddingGenerator`). The three planes of a camera frame are packed into an NV21 buffer in place: Y, then V, then U. The buffer is decoded into a bitmap. The bitmap gets a fixed quarter turn clockwise unless the frame's rotation hint is 90. The face box is then bounds-checked and cropped. The crop is scaled to 112 × 112 and run through the network, which writes 192 values into one 1 × 192 buffer. Every call reuses that buffer.
- **Overlay geometry** (`FaceOverlayController`, and the copies in `HomeViewModel` and `PreviewController`). For each face it computes the on-screen rectangle, mirrored for the front camera, and two balance circles. Each circle sits 50 units from the edge the face leans away from.
- **Camera and flash state** (`HomeViewModel`, `PreviewController`). This covers lens facing, flashlight, camera binding and the preview-surface size the frame analyser keeps up to date. It also covers the filter that keeps only faces wider than 10.
- **Splash permissions and navigation routes** (`SplashViewModel`, `Screen`).

Modules follow the source files:

- `face_embedding.dfy` holds `FaceEmbedding`.
- `face_overlay.dfy` holds `FaceOverlay`. It is the one definition of the geometry that the three Kotlin copies repeat.
- `home_view_model.dfy` holds `Home`.
- `preview_controller.dfy` holds `Preview`.
- `splash_view_model.dfy` holds `Splash`.
- `screen_routes.dfy` holds `ScreenRoutes`.
- `common.dfy` holds `Option` and `Outcome`, which model Kotlin `null` and thrown exceptions.

Modelling choices:

- Kotlin `Float` is modelled as `real`.
- Bitmaps are grids of `height` rows of `width` pixels.
- Face boxes are given as integers, as the detector reports them: centre, width and height for the overlay, and left, top, width and height for the crop.
- Platform and library calls are function-typed parameters. These are the NV21-to-JPEG-to-bitmap round trip, `Bitmap.scale`, the image processor and the interpreter. The permission check (`checkSelfPermission`) is a `string -> bool` parameter.

Behaviour of the code that the proofs make explicit:

- The crop guard uses strict `>`, so a box that touches the right or bottom border is accepted.
- The guard does not reject an empty box (width or height ≤ 0). `Bitmap.createBitmap` then throws. `CropResult.EmptyRegion` and `GenerateResult.Thrown` model that exception.
- Every rotation hint other than 90 gets the same +90° turn, including 0, 180 and 270.
- The surface size becomes (frame height, frame width) only when the frame width is not 480 **and** the frame height is not 640. So a 480 × 720 frame leaves the surface size unchanged.
- The mirrored left edge always uses the first surface dimension. The balance-circle geometry uses the second dimension in landscape.
- A face centred exactly on the vertical mid-line gets `Right` gravity for both cameras. The vertical tie goes to `Bottom`. Both put the circle at coordinate 50.
- `switchCamera` changes the lens, turning the flash off when going to the front camera, and unbinds. Only then does it read the `lateinit` preview view. If no preview was ever bound, the lens change and the unbind stay in effect and the call throws. `CameraError.PreviewNotInitialized` models this.

## Model

| member | source | states |
|---|---|---|
| `FaceEmbedding.InferFaceBitmap` | app/src/main/java/ir/hrka/face/core/utilities/FaceEmbeddingGenerator.kt:87-106 | rejected (null) iff left < 0, top < 0, left+width > W or top+height > H; an in-bounds box with non-positive width or height is the createBitmap exception; a crop is width × height and pixel (i,j) is source pixel (top+i, left+j) |
| `FaceEmbedding.SubBitmap` | app/src/main/java/ir/hrka/face/core/utilities/FaceEmbeddingGenerator.kt:105 | the sub-grid's size is the requested one and each pixel is the source pixel offset by (top, left) |
| `FaceEmbedding.BorderBoxAccepted` | app/src/main/java/ir/hrka/face/core/utilities/FaceEmbeddingGenerator.kt:99-103 | a box whose right edge equals the width and bottom edge equals the height is cropped, not rejected |
| `FaceEmbedding.RotateClockwise` | app/src/main/java/ir/hrka/face/core/utilities/FaceEmbeddingGenerator.kt:73-85 | the turned bitmap swaps width and height and pixel (i,j) comes from source pixel (H-1-j, i) |
| `FaceEmbedding.SameTurnForEveryOtherHint` | app/src/main/java/ir/hrka/face/core/utilities/FaceEmbeddingGenerator.kt:44-47 | every hint other than 90 yields the same fixed quarter turn |
| `FaceEmbedding.FaceBitmapInFrameCoordinates` | app/src/main/java/ir/hrka/face/core/utilities/FaceEmbeddingGenerator.kt:40-48 | with hint 90 the box is checked against the decoded frame's own size, otherwise against the swapped size; each cropped pixel is identified with its pixel in the decoded frame |
| `FaceEmbedding.Nv21Layout` | app/src/main/java/ir/hrka/face/core/utilities/FaceEmbeddingGenerator.kt:55-63 | the packed buffer has length ySize+uSize+vSize and Y, V, U can each be read back unchanged from their own contiguous range |
| `FaceEmbedding.CopyInto` | app/src/main/java/ir/hrka/face/core/utilities/FaceEmbeddingGenerator.kt:61-63 | a bulk copy writes the source at the offset and leaves the rest of the buffer unchanged |
| `FaceEmbedding.AssembleNv21` | app/src/main/java/ir/hrka/face/core/utilities/FaceEmbeddingGenerator.kt:59-63 | a fresh buffer holding exactly Y ++ V ++ U |
| `FaceEmbedding.ImageProxyToBitmap` | app/src/main/java/ir/hrka/face/core/utilities/FaceEmbeddingGenerator.kt:50-71 | the bitmap is the decoder applied to the NV21 packing, the frame size and quality 100 |
| `FaceEmbedding.ProvideFaceBitmap` | app/src/main/java/ir/hrka/face/core/utilities/FaceEmbeddingGenerator.kt:40-48 | the result is the crop of the decoded frame, turned a quarter turn exactly when the hint is not 90 |
| `FaceEmbedding.FaceEmbeddingGenerator.constructor` | app/src/main/java/ir/hrka/face/core/utilities/FaceEmbeddingGenerator.kt:23 | one fresh 1 × 192 buffer of zeros |
| `FaceEmbedding.FaceEmbeddingGenerator.Generate` | app/src/main/java/ir/hrka/face/core/utilities/FaceEmbeddingGenerator.kt:26-37 | null exactly when the crop is rejected, the exception exactly for an empty crop, otherwise the shared 1 × 192 buffer itself, holding the network's output on the crop scaled to 112 × 112; the buffer is untouched when no crop is made |
| `FaceEmbedding.GenerateTwice` | app/src/main/java/ir/hrka/face/core/utilities/FaceEmbeddingGenerator.kt:23-37 | two successful calls return the same buffer object, which then holds the second face's embedding |
| `FaceOverlay.HorizontalGravity` | app/src/main/java/ir/hrka/face/presentation/ui/screens/home/FaceOverlayController.kt:91-108 | horizontal gravity is Left or Right; for the back camera it is Right iff centerX ≥ overlayWidth/2, for the mirrored front camera Right iff centerX ≤ overlayWidth/2 |
| `FaceOverlay.VerticalGravity` | app/src/main/java/ir/hrka/face/presentation/ui/screens/home/FaceOverlayController.kt:110-121 | vertical gravity is Top or Bottom, and Bottom iff centerY ≥ overlayHeight/2 |
| `FaceOverlay.FaceOverlayOf` | app/src/main/java/ir/hrka/face/presentation/ui/screens/home/FaceOverlayController.kt:12-89 | the rectangle keeps the box's width and height and is centred on the box's centre, horizontally mirrored about surface.first for the front camera; the horizontal circle's Y is overlayHeight/2, the vertical circle's X is overlayWidth/2, and the other two coordinates are 50 or the extent minus 50: the horizontal circle is at overlayWidth−50 exactly when horizontal gravity is Left, the vertical circle at overlayHeight−50 exactly when vertical gravity is Top |
| `FaceOverlay.MirrorReflection` | app/src/main/java/ir/hrka/face/presentation/ui/screens/home/FaceOverlayController.kt:21-28 | faceLeft(front) + faceLeft(back) + width = surface.first, and faceLeft does not depend on the orientation |
| `FaceOverlay.RectangleIndependentOfView` | app/src/main/java/ir/hrka/face/presentation/ui/screens/home/FaceOverlayController.kt:30-35 | top, width and height are the same for every surface, lens and orientation |
| `FaceOverlay.HorizontalTieGoesRight` | app/src/main/java/ir/hrka/face/presentation/ui/screens/home/FaceOverlayController.kt:91-108 | a face centred at overlayWidth/2 gets Right gravity for both cameras |
| `FaceOverlay.HorizontalGravityMirrored` | app/src/main/java/ir/hrka/face/presentation/ui/screens/home/FaceOverlayController.kt:91-108 | off the mid-line, front and back cameras give opposite horizontal gravity |
| `FaceOverlay.HorizontalCircleSide` | app/src/main/java/ir/hrka/face/presentation/ui/screens/home/FaceOverlayController.kt:45-108 | for the back camera a face right of the mid-line puts the horizontal circle at 50 and one left of it at overlayWidth−50; the front camera does the opposite; a face on the mid-line puts it at 50 for both |
| `FaceOverlay.CirclesFollowGravity` | app/src/main/java/ir/hrka/face/presentation/ui/screens/home/FaceOverlayController.kt:45-89 | Left gravity puts the horizontal circle at overlayWidth-50 and Right at 50; Top puts the vertical circle at overlayHeight-50 and Bottom at 50; the other coordinates are the mid-lines |
| `FaceOverlay.VerticalCircleIgnoresLens` | app/src/main/java/ir/hrka/face/presentation/ui/screens/home/FaceOverlayController.kt:78-121 | the vertical circle is the same for both cameras, and gravity is Bottom iff centerY ≥ overlayHeight/2 |
| `FaceOverlay.LandscapeIsSwappedPortrait` | app/src/main/java/ir/hrka/face/presentation/ui/screens/home/FaceOverlayController.kt:45-121 | all four circle coordinates in landscape over (a, b) equal those in portrait over (b, a) |
| `Home.SurfaceAfterFrame` | app/src/main/java/ir/hrka/face/presentation/ui/screens/home/HomeViewModel.kt:67-69 | the surface becomes (height, width) when width ≠ 480 and height ≠ 640, and is unchanged otherwise |
| `Home.SurfaceAfterFrameIdempotent` | app/src/main/java/ir/hrka/face/presentation/ui/screens/home/HomeViewModel.kt:67-69 | a second frame of the same size changes nothing |
| `Home.Kept` | app/src/main/java/ir/hrka/face/presentation/ui/screens/home/HomeViewModel.kt:143-163 | the kept faces are input faces wider than 10, no more of them than the input |
| `Home.KeptExactly` | app/src/main/java/ir/hrka/face/presentation/ui/screens/home/HomeViewModel.kt:149 | a face is kept iff it is in the input and wider than 10 |
| `Home.KeptAppend` | app/src/main/java/ir/hrka/face/presentation/ui/screens/home/HomeViewModel.kt:146-160 | filtering distributes over concatenation, so kept faces stay in input order |
| `Home.KeptAll` | app/src/main/java/ir/hrka/face/presentation/ui/screens/home/HomeViewModel.kt:146-160 | when every face is wider than 10, all of them are kept |
| `Home.KeptNone` | app/src/main/java/ir/hrka/face/presentation/ui/screens/home/HomeViewModel.kt:146-160 | when no face is wider than 10, none is kept |
| `Home.OverlaysOf` | app/src/main/java/ir/hrka/face/presentation/ui/screens/home/HomeViewModel.kt:150-158 | one overlay per kept face, the i-th for the i-th face |
| `Home.HomeViewModel.constructor` | app/src/main/java/ir/hrka/face/presentation/ui/screens/home/HomeViewModel.kt:44-56 | starts on the back camera with the flash off, surface (480, 640), portrait, nothing bound |
| `Home.HomeViewModel.BindPreview` | app/src/main/java/ir/hrka/face/presentation/ui/screens/home/HomeViewModel.kt:60-92 | records the preview and orientation and binds a camera whose selector requires the current lens |
| `Home.HomeViewModel.UnbindPreview` | app/src/main/java/ir/hrka/face/presentation/ui/screens/home/HomeViewModel.kt:94-100 | afterwards camera and selector are null; when nothing was bound the call changes nothing, so it is idempotent |
| `Home.HomeViewModel.SwitchCamera` | app/src/main/java/ir/hrka/face/presentation/ui/screens/home/HomeViewModel.kt:102-111 | back becomes front with the flash off, front becomes back with the flash untouched; rebinds for the new lens, or throws after unbinding when no preview was ever bound |
| `Home.HomeViewModel.ToggleFlashLight` | app/src/main/java/ir/hrka/face/presentation/ui/screens/home/HomeViewModel.kt:113-122 | on the back camera the flash is negated; on the front camera it throws IllegalStateException and nothing changes |
| `Home.HomeViewModel.AnalyzeFrame` | app/src/main/java/ir/hrka/face/presentation/ui/screens/home/HomeViewModel.kt:66-69 | the analyser applies the surface-size rule and changes nothing else |
| `Home.HomeViewModel.GetFaceOverlay` | app/src/main/java/ir/hrka/face/presentation/ui/screens/home/HomeViewModel.kt:143-163 | the loop returns exactly the overlays of the faces wider than 10, in input order, for the current surface, lens and orientation |
| `Home.HomeViewModel.OnFacesDetected` | app/src/main/java/ir/hrka/face/presentation/ui/screens/home/HomeViewModel.kt:77-79 | the published overlays are those of the kept faces |
| `Home.SwitchTwice` | app/src/main/java/ir/hrka/face/presentation/ui/screens/home/HomeViewModel.kt:102-111 | two switches restore the lens; starting from back, the flash ends up off; the front-camera-means-flash-off invariant holds throughout |
| `Preview.PreviewController.constructor` | app/src/main/java/ir/hrka/face/presentation/ui/screens/home/PreviewController.kt:31-36 | surface (480, 640), portrait, no camera or selector |
| `Preview.PreviewController.BindPreview` | app/src/main/java/ir/hrka/face/presentation/ui/screens/home/PreviewController.kt:39-60 | binds a camera whose selector requires the view model's lens and records the orientation |
| `Preview.PreviewController.UnbindPreview` | app/src/main/java/ir/hrka/face/presentation/ui/screens/home/PreviewController.kt:62-68 | camera and selector are null afterwards; a second call changes nothing |
| `Preview.PreviewController.SwitchCamera` | app/src/main/java/ir/hrka/face/presentation/ui/screens/home/PreviewController.kt:70-79 | back to front sets the flash false, front to back leaves it untouched; rebinds, or throws after unbinding when no preview was bound |
| `Preview.PreviewController.ToggleFlashLight` | app/src/main/java/ir/hrka/face/presentation/ui/screens/home/PreviewController.kt:81-90 | on the back camera the flash becomes the negation of its value; on the front camera it throws and the view model is unchanged |
| `Preview.PreviewController.AnalyzeFrame` | app/src/main/java/ir/hrka/face/presentation/ui/screens/home/PreviewController.kt:46-49 | the controller's own surface follows the same width ≠ 480 and height ≠ 640 rule |
| `Preview.PreviewController.GetFaceOverlay` | app/src/main/java/ir/hrka/face/presentation/ui/screens/home/PreviewController.kt:111-134 | the left edge is mirrored on previewSurfaceSize.first for the front camera; top, width and height pass through from the box |
| `Preview.SwitchTwice` | app/src/main/java/ir/hrka/face/presentation/ui/screens/home/PreviewController.kt:70-79 | two switches restore the lens, and starting from back the flash ends up off |
| `Splash.LastSegment` | app/src/main/java/ir/hrka/face/presentation/ui/screens/splash/SplashViewModel.kt:49 | the result is the longest suffix without '.': it has no '.', is a suffix, and is the whole string or follows a '.' |
| `Splash.LastSegmentAfterDot` | app/src/main/java/ir/hrka/face/presentation/ui/screens/splash/SplashViewModel.kt:49 | the segment after a final '.' is exactly the text that follows it |
| `Splash.CameraPermissionSegment` | app/src/main/java/ir/hrka/face/presentation/ui/screens/splash/SplashViewModel.kt:49 | "android.permission.CAMERA" is listed as "CAMERA" |
| `Splash.DeniedLinesAppend` | app/src/main/java/ir/hrka/face/presentation/ui/screens/splash/SplashViewModel.kt:43-50 | the denied lines of a concatenation are the two lists' lines in order |
| `Splash.DeniedLinesEmptyIffAllGranted` | app/src/main/java/ir/hrka/face/presentation/ui/screens/splash/SplashViewModel.kt:27-51 | no denied line is produced iff every permission is granted |
| `Splash.InitPermissionState` | app/src/main/java/ir/hrka/face/presentation/ui/screens/splash/SplashViewModel.kt:59-67 | the map's keys are exactly the required permissions and each maps to null |
| `Splash.SplashViewModel.constructor` | app/src/main/java/ir/hrka/face/presentation/ui/screens/splash/SplashViewModel.kt:21-23 | the camera permission is the one requirement and starts mapped to null |
| `Splash.SplashViewModel.HasAllPermissions` | app/src/main/java/ir/hrka/face/presentation/ui/screens/splash/SplashViewModel.kt:27-38 | true iff every required permission is granted |
| `Splash.SplashViewModel.GetListOfDeniedPermissions` | app/src/main/java/ir/hrka/face/presentation/ui/screens/splash/SplashViewModel.kt:40-51 | "\n" followed by "\n* " + last segment for each denied permission in order; the text is exactly "\n" iff every permission is granted |
| `Splash.SplashViewModel.SetPermissionState` | app/src/main/java/ir/hrka/face/presentation/ui/screens/splash/SplashViewModel.kt:54-56 | the whole state is replaced by the argument's entries |
| `ScreenRoutes.Invoke` | app/src/main/java/ir/hrka/face/core/utilities/Screen.kt:8-11 | invoking a screen gives its destination, "splash" for Splash, which is also appendArg with no arguments |
| `ScreenRoutes.AppendArg` | app/src/main/java/ir/hrka/face/core/utilities/Screen.kt:14-22 | the route is the destination followed by "/" + a for each argument in order; it starts with the destination, has length len(destination) + Σ(len(a) + 1), and equals the destination when there are no arguments |
| `ScreenRoutes.AppendedArgsAppend` | app/src/main/java/ir/hrka/face/core/utilities/Screen.kt:18-20 | appendArg(xs ++ ys) is appendArg(xs) followed by the slashed pieces of ys |
| `ScreenRoutes.SlashedLength` | app/src/main/java/ir/hrka/face/core/utilities/Screen.kt:15-21 | the pieces add exactly one character per argument beyond the arguments' own lengths |

## Left out

- Camera plumbing is left out: CameraX binding, `setSurfaceProvider`, analyzer registration, `bindToLifecycle`/`unbind` and `enableTorch`. Binding is recorded as booleans and the selector's lens. Torch requests are not recorded. Exceptions thrown by `bindToLifecycle` are not modelled.
- The coroutine in `setFlashLightState` that forwards the flash state to the torch is left out. It is asynchronous and concurrent.
- ML Kit detection is not modelled. Only the success callback's assignment of overlays is (`OnFacesDetected`). The failure and complete callbacks, the `imageProxy.close()` call and the logging are out.
- The `detectFaces` call in `PreviewController`'s analyser is left out. So are the `setLensFacing` and `setFlashlightState` setters. Both belong to a version of `HomeViewModel` that is not part of this model. `LensAndFlashState` stands for the lens and flash state that version holds.
- The platform image operations are function-typed parameters and are not modelled: YUV compression to JPEG, `BitmapFactory.decodeByteArray`, `Bitmap.scale`, `TensorImage`, the image processor's bilinear resize and normalisation, and `Interpreter.run`. The quarter turn is modelled as an exact pixel rotation.
- FaceEmbedding.ImageProxyToBitmap: does not model `decodeByteArray` returning null, or the `YuvImage` constructor's own checks. The decoder parameter always returns a bitmap.
- FaceEmbedding.InferFaceBitmap: does not model 32-bit `Int` wrap-around. `Rect.width()` and `height()` are 32-bit subtractions and the guard sums `left + width` and `top + height` are 32-bit additions; the model takes the box's width and height as given and adds them unbounded. So a box whose sum overflows, such as `Rect(10, 0, Int.MIN_VALUE, 10)` on a 100 × 100 bitmap, is rejected by the model but passes the source's guard.
- FaceEmbedding.CopyInto: does not model the plane buffers' positions advancing as they are read. Each plane is given as its remaining bytes.
- `Rect.centerX()`, `width()` and `height()` are not derived. Boxes are given as the integers those calls return.
- Floating-point rounding of the overlay arithmetic is not modelled. Coordinates are reals.
- Android orientation codes other than portrait are all modelled as `Landscape`, which is how the source's `== ORIENTATION_PORTRAIT` test treats them.
- Embedding similarity and reference matching are not modelled. No such code exists in these source files.
- Compose UI, navigation, dependency-injection wiring and application setup contain no logic to verify and are not modelled.
