/**
 * FaceEmbeddingGenerator: turn a camera frame and a face bounding box into a face
 * embedding. The frame's planes are packed into an NV21 buffer, decoded into a bitmap,
 * turned upright unless the frame reports the canonical 90-degree rotation, cropped to
 * the box, scaled to the network's input size and run through the network, whose
 * output lands in one 1 x 192 buffer that every call reuses.
 */
module FaceEmbedding {

  type Byte = bv8

  /** A packed colour value of one bitmap pixel. */
  type Pixel = int

  datatype Grid = Grid(width: nat, height: nat, rows: seq<seq<Pixel>>)

  /** An image as `height` rows of `width` pixels each. */
  type Bitmap = g: Grid | |g.rows| == g.height && forall i | 0 <= i < |g.rows| :: |g.rows[i]| == g.width
    witness Grid(0, 0, [])

  /** Side of the square that crops are scaled to before inference (`FACE_NET_INPUT_IMAGE_SIZE`). */
  const FaceNetInputImageSize: int := 112

  /** Length of the network's single output row. */
  const EmbeddingLength: nat := 192

  /** The rotation hint for which the decoded frame is used as it is. */
  const CanonicalRotation: int := 90

  /** Quality the frame is compressed at on its way to a bitmap. */
  const JpegQuality: int := 100

  /** One network output: exactly 192 values. */
  type EmbeddingVector = v: seq<real> | |v| == EmbeddingLength witness seq(192, _ => 0.0)

  /** A camera frame: size, rotation hint and the remaining bytes of its Y, U and V plane buffers. */
  datatype Frame = Frame(width: int, height: int, rotationDegrees: int,
                         yPlane: seq<Byte>, uPlane: seq<Byte>, vPlane: seq<Byte>)

  /** The face box as the crop reads it: `left`, `top`, `width()`, `height()`. */
  datatype CropBox = CropBox(left: int, top: int, width: int, height: int)

  /**
   * The result of cutting the face out of the upright bitmap: the sub-bitmap, `null`
   * for a box outside the bitmap, or the exception `Bitmap.createBitmap` throws for an
   * empty region (a width or height that is not positive).
   */
  datatype CropResult = Cropped(bitmap: Bitmap) | OutOfBounds | EmptyRegion

  /** The box lies inside the bitmap; edges may touch the right and bottom borders. */
  predicate FitsInside(b: Bitmap, box: CropBox)
  {
    box.left >= 0 && box.top >= 0 && box.left + box.width <= b.width && box.top + box.height <= b.height
  }

  /** The `width` by `height` region whose top-left pixel is `(top, left)`. */
  function SubBitmap(b: Bitmap, left: nat, top: nat, width: nat, height: nat): (r: Bitmap)
    requires left + width <= b.width && top + height <= b.height
    ensures r.width == width && r.height == height
    ensures forall i, j :: 0 <= i < height && 0 <= j < width ==> r.rows[i][j] == b.rows[top + i][left + j]
  {
    Grid(width, height, seq(height, i requires 0 <= i < height => b.rows[top + i][left..left + width]))
  }

  /** `inferFaceBitmapFromOriginalBitmap`: the guards, then the crop. */
  function InferFaceBitmap(b: Bitmap, box: CropBox): (r: CropResult)
    ensures r.OutOfBounds? <==> !FitsInside(b, box)
    ensures r.EmptyRegion? <==> FitsInside(b, box) && (box.width <= 0 || box.height <= 0)
    ensures r.Cropped? ==>
              && r.bitmap.width == box.width && r.bitmap.height == box.height
              && forall i, j :: 0 <= i < box.height && 0 <= j < box.width
                   ==> r.bitmap.rows[i][j] == b.rows[box.top + i][box.left + j]
  {
    if box.left < 0 || box.top < 0 then OutOfBounds
    else if box.left + box.width > b.width then OutOfBounds
    else if box.top + box.height > b.height then OutOfBounds
    else if box.width <= 0 || box.height <= 0 then EmptyRegion
    else Cropped(SubBitmap(b, box.left, box.top, box.width, box.height))
  }

  /** A box touching the right and bottom borders is still accepted. */
  lemma BorderBoxAccepted(b: Bitmap, left: nat, top: nat)
    requires left < b.width && top < b.height
    ensures InferFaceBitmap(b, CropBox(left, top, b.width - left, b.height - top)).Cropped?
  {
  }

  /** A quarter turn clockwise (`postRotate(90f)`): the bitmap's height becomes its width. */
  function RotateClockwise(b: Bitmap): (r: Bitmap)
    ensures r.width == b.height && r.height == b.width
    ensures forall i, j :: 0 <= i < r.height && 0 <= j < r.width ==> r.rows[i][j] == b.rows[b.height - 1 - j][i]
  {
    Grid(b.height, b.width,
         seq(b.width, i requires 0 <= i < b.width =>
           seq(b.height, j requires 0 <= j < b.height => b.rows[b.height - 1 - j][i])))
  }

  /** Only the canonical hint skips the rotation. */
  predicate NeedsRotation(rotationDegrees: int)
  {
    rotationDegrees != CanonicalRotation
  }

  /** The bitmap the crop is taken from: turned a fixed quarter turn whenever the hint is not 90. */
  function UprightBitmap(original: Bitmap, rotationDegrees: int): Bitmap
  {
    if NeedsRotation(rotationDegrees) then RotateClockwise(original) else original
  }

  /** `provideFaceBitmap` once the frame has been decoded into `original`. */
  function FaceBitmapFrom(original: Bitmap, rotationDegrees: int, box: CropBox): CropResult
  {
    InferFaceBitmap(UprightBitmap(original, rotationDegrees), box)
  }

  /** Hints 0, 180 and 270 all get the same quarter turn, whatever rotation they ask for. */
  lemma SameTurnForEveryOtherHint(original: Bitmap, d1: int, d2: int)
    requires d1 != CanonicalRotation && d2 != CanonicalRotation
    ensures UprightBitmap(original, d1) == UprightBitmap(original, d2) == RotateClockwise(original)
  {
  }

  /**
   * The face bitmap in the decoded frame's own coordinates: for the canonical hint the box
   * is checked against the frame as it is, otherwise against the turned frame, whose width
   * is the frame's height; each accepted pixel comes from the matching frame pixel.
   */
  lemma FaceBitmapInFrameCoordinates(original: Bitmap, rotationDegrees: int, box: CropBox)
    ensures var r := FaceBitmapFrom(original, rotationDegrees, box);
            var w := if NeedsRotation(rotationDegrees) then original.height else original.width;
            var h := if NeedsRotation(rotationDegrees) then original.width else original.height;
            && (r.OutOfBounds? <==>
                  !(box.left >= 0 && box.top >= 0 && box.left + box.width <= w && box.top + box.height <= h))
            && (r.Cropped? ==> r.bitmap.width == box.width && r.bitmap.height == box.height)
            && (r.Cropped? && !NeedsRotation(rotationDegrees) ==>
                  forall i, j :: 0 <= i < box.height && 0 <= j < box.width
                    ==> r.bitmap.rows[i][j] == original.rows[box.top + i][box.left + j])
            && (r.Cropped? && NeedsRotation(rotationDegrees) ==>
                  forall i, j :: 0 <= i < box.height && 0 <= j < box.width
                    ==> r.bitmap.rows[i][j] == original.rows[original.height - 1 - (box.left + j)][box.top + i])
  {
  }

  /** The NV21 layout the frame is packed into: all of Y, then all of V, then all of U. */
  function Nv21Of(frame: Frame): seq<Byte>
  {
    frame.yPlane + frame.vPlane + frame.uPlane
  }

  /** Each plane can be read back, unchanged, from its own range of the packed buffer. */
  lemma Nv21Layout(frame: Frame)
    ensures var nv21, y, v := Nv21Of(frame), |frame.yPlane|, |frame.vPlane|;
            && |nv21| == y + |frame.uPlane| + v
            && nv21[..y] == frame.yPlane
            && nv21[y..y + v] == frame.vPlane
            && nv21[y + v..] == frame.uPlane
  {
  }

  /** `buffer.get(dst, offset, |src|)`: copies `src` into `dst` at `offset`, leaving the rest alone. */
  method CopyInto(src: seq<Byte>, dst: array<Byte>, offset: nat)
    requires offset + |src| <= dst.Length
    modifies dst
    ensures dst[..] == old(dst[..offset]) + src + old(dst[offset + |src|..])
  {
    for k := 0 to |src|
      invariant dst[..offset] == old(dst[..offset])
      invariant dst[offset..offset + k] == src[..k]
      invariant dst[offset + k..] == old(dst[offset + k..])
    {
      dst[offset + k] := src[k];
      assert dst[offset..offset + k + 1] == dst[offset..offset + k] + [src[k]];
      assert src[..k + 1] == src[..k] + [src[k]];
    }
    assert dst[..] == dst[..offset] + dst[offset..offset + |src|] + dst[offset + |src|..];
  }

  /** Allocates the NV21 buffer and fills it with three bulk copies: Y at 0, V after Y, U after V. */
  method AssembleNv21(frame: Frame) returns (nv21: array<Byte>)
    ensures fresh(nv21)
    ensures nv21[..] == Nv21Of(frame)
  {
    var y, u, v := frame.yPlane, frame.uPlane, frame.vPlane;
    nv21 := new Byte[|y| + |u| + |v|];
    CopyInto(y, nv21, 0);
    CopyInto(v, nv21, |y|);
    CopyInto(u, nv21, |y| + |v|);
    assert nv21[..] == y + v + u;
  }

  /**
   * `imageProxyToBitmap`. `decodeNv21(bytes, width, height, quality)` stands for the platform's
   * NV21-to-JPEG compression followed by JPEG decoding.
   */
  method ImageProxyToBitmap(frame: Frame, decodeNv21: (seq<Byte>, int, int, int) -> Bitmap) returns (b: Bitmap)
    ensures b == decodeNv21(Nv21Of(frame), frame.width, frame.height, JpegQuality)
  {
    var nv21 := AssembleNv21(frame);
    b := decodeNv21(nv21[..], frame.width, frame.height, JpegQuality);
  }

  /** `provideFaceBitmap`: decode the frame, turn it upright unless its hint is 90, crop the face. */
  method ProvideFaceBitmap(frame: Frame, box: CropBox, decodeNv21: (seq<Byte>, int, int, int) -> Bitmap)
    returns (face: CropResult)
    ensures face == FaceBitmapFrom(decodeNv21(Nv21Of(frame), frame.width, frame.height, JpegQuality),
                                   frame.rotationDegrees, box)
  {
    var original := ImageProxyToBitmap(frame, decodeNv21);
    if frame.rotationDegrees != CanonicalRotation {
      face := InferFaceBitmap(RotateClockwise(original), box);
    } else {
      face := InferFaceBitmap(original, box);
    }
  }

  /** What `generate` returns: `null`, the exception from an empty crop, or the embedding buffer. */
  datatype GenerateResult = NoFace | Thrown | Embedding(values: array2<real>)

  /** The face bitmap `generate` works on for a frame and box. */
  function DecodedFace(frame: Frame, box: CropBox, decodeNv21: (seq<Byte>, int, int, int) -> Bitmap): CropResult
  {
    FaceBitmapFrom(decodeNv21(Nv21Of(frame), frame.width, frame.height, JpegQuality), frame.rotationDegrees, box)
  }

  class FaceEmbeddingGenerator {
    /** The single 1 x 192 output buffer, allocated once and overwritten by every inference. */
    const embedding: array2<real>

    ghost predicate Valid()
    {
      embedding.Length0 == 1 && embedding.Length1 == EmbeddingLength
    }

    /** The buffer's one row, as a sequence. */
    function Row(): (row: seq<real>)
      reads embedding
      requires Valid()
      ensures |row| == EmbeddingLength
    {
      seq(EmbeddingLength, k requires 0 <= k < EmbeddingLength reads embedding => embedding[0, k])
    }

    constructor ()
      ensures Valid() && fresh(embedding)
      ensures Row() == seq(EmbeddingLength, _ => 0.0)
    {
      embedding := new real[1, EmbeddingLength]((_, _) => 0.0);
    }

    /**
     * `generate(imageProxy, boundingBox)`. `scale(bitmap, width, height, filter)` stands for
     * `Bitmap.scale`, `preprocess` for the image processor applied to the tensor image, and
     * `interpret` for the network's run, which writes its output into the shared buffer.
     */
    method Generate(frame: Frame, box: CropBox,
                    decodeNv21: (seq<Byte>, int, int, int) -> Bitmap,
                    scale: (Bitmap, int, int, bool) -> Bitmap,
                    preprocess: Bitmap -> seq<real>,
                    interpret: seq<real> -> EmbeddingVector)
      returns (result: GenerateResult)
      requires Valid()
      modifies embedding
      ensures Valid()
      ensures result.NoFace? <==> DecodedFace(frame, box, decodeNv21).OutOfBounds?
      ensures result.Thrown? <==> DecodedFace(frame, box, decodeNv21).EmptyRegion?
      ensures DecodedFace(frame, box, decodeNv21).Cropped? ==>
                && result == Embedding(embedding)
                && Row() == interpret(preprocess(scale(DecodedFace(frame, box, decodeNv21).bitmap,
                                                       FaceNetInputImageSize, FaceNetInputImageSize, false)))
      ensures !DecodedFace(frame, box, decodeNv21).Cropped? ==> unchanged(embedding)
    {
      var face := ProvideFaceBitmap(frame, box, decodeNv21);
      match face
      case OutOfBounds =>
        result := NoFace;
      case EmptyRegion =>
        result := Thrown;
      case Cropped(bitmap) =>
        var resized := scale(bitmap, FaceNetInputImageSize, FaceNetInputImageSize, false);
        var values := interpret(preprocess(resized));
        for k := 0 to EmbeddingLength
          invariant forall m :: 0 <= m < k ==> embedding[0, m] == values[m]
        {
          embedding[0, k] := values[k];
        }
        assert Row() == values;
        result := Embedding(embedding);
    }
  }

  /**
   * Two successful calls hand back the same buffer: after the second call, what the first
   * caller holds shows the second face's embedding.
   */
  method GenerateTwice(generator: FaceEmbeddingGenerator,
                       first: Frame, firstBox: CropBox, second: Frame, secondBox: CropBox,
                       decodeNv21: (seq<Byte>, int, int, int) -> Bitmap,
                       scale: (Bitmap, int, int, bool) -> Bitmap,
                       preprocess: Bitmap -> seq<real>,
                       interpret: seq<real> -> EmbeddingVector)
    returns (r1: GenerateResult, r2: GenerateResult)
    requires generator.Valid()
    requires DecodedFace(first, firstBox, decodeNv21).Cropped?
    requires DecodedFace(second, secondBox, decodeNv21).Cropped?
    modifies generator.embedding
    ensures r1 == r2 == Embedding(generator.embedding)
    ensures generator.Row() == interpret(preprocess(scale(DecodedFace(second, secondBox, decodeNv21).bitmap,
                                                          FaceNetInputImageSize, FaceNetInputImageSize, false)))
  {
    r1 := generator.Generate(first, firstBox, decodeNv21, scale, preprocess, interpret);
    r2 := generator.Generate(second, secondBox, decodeNv21, scale, preprocess, interpret);
  }
}
