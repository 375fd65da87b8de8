/**
 * The photo compression step run before upload: the decoded image is scaled
 * down to fit an 800 x 800 box, keeping its aspect ratio, and re-encoded as
 * JPEG at quality 0.6.
 */
module ImageNormalizer {
  import opened Wrappers

  const MaxWidth: real := 800.0
  const MaxHeight: real := 800.0
  const JpegQuality: real := 0.6
  const CompressionErrorText: string := "Erreur lors de la compression"

  /** Canvas dimensions, exact. */
  datatype Dimensions = Dimensions(width: real, height: real)

  /** An encoded image payload. */
  type Blob = seq<bv8>

  datatype ImageError = DecodeFailed | EncodeFailed(message: string)

  datatype Compressed = Compressed(size: Dimensions, blob: Blob)

  datatype ImageResult = Encoded(image: Compressed) | Failed(error: ImageError)

  /**
   * `(side * bound) / other`: the side that shrinks with `other` when `other`
   * is brought down to `bound`. It keeps the ratio and grows nothing.
   */
  function ScaleSide(side: real, other: real, bound: real): (r: real)
    requires 0.0 <= side <= other && 0.0 < bound < other
    ensures r * other == side * bound
    ensures r <= side && r <= bound
  {
    var r := (side * bound) / other;
    assert r * other == side * bound;
    ScaledDown(side, other, bound, r);
    r
  }

  lemma ScaledDown(s: real, l: real, b: real, s': real)
    requires 0.0 <= s <= l && 0.0 < b < l
    requires s' * l == s * b
    ensures s' <= s && s' <= b
  {
    assert (s' - s) * l == s * (b - l) <= 0.0;
    assert (s' - b) * l == b * (s - l) <= 0.0;
  }

  /**
   * The canvas size chosen for an image of `width` x `height` pixels. An image
   * within the box keeps its size; otherwise its larger side (the height on a
   * tie) becomes 800 and the other side is scaled by the same factor.
   */
  function TargetSize(width: nat, height: nat): (r: Dimensions)
    ensures r.width <= MaxWidth && r.height <= MaxHeight
    ensures r.width <= width as real && r.height <= height as real
    ensures r.width * height as real == r.height * width as real
    ensures width as real <= MaxWidth && height as real <= MaxHeight
            ==> r == Dimensions(width as real, height as real)
    ensures !(width as real <= MaxWidth && height as real <= MaxHeight) ==>
              if width > height then r.width == MaxWidth else r.height == MaxHeight
  {
    var w, h := width as real, height as real;
    if w > MaxWidth || h > MaxHeight then
      if w > h then Dimensions(MaxWidth, ScaleSide(h, w, MaxWidth))
      else Dimensions(ScaleSide(w, h, MaxHeight), MaxHeight)
    else
      Dimensions(w, h)
  }

  /** The resize step as the browser code performs it, by reassigning the two sides. */
  method FitToBox(imgWidth: nat, imgHeight: nat) returns (width: real, height: real)
    ensures Dimensions(width, height) == TargetSize(imgWidth, imgHeight)
  {
    width, height := imgWidth as real, imgHeight as real;
    if width > MaxWidth || height > MaxHeight {
      if width > height {
        height := (height * MaxWidth) / width;
        width := MaxWidth;
      } else {
        width := (width * MaxHeight) / height;
        height := MaxHeight;
      }
    }
  }

  /**
   * `compressImage`: `decoded` is the natural size of the loaded image, absent
   * when it fails to load; `encode` is `canvas.toBlob` at JPEG quality
   * `JpegQuality`, absent when it yields no blob.
   */
  function CompressImage(decoded: Option<(nat, nat)>, encode: Dimensions -> Option<Blob>): (r: ImageResult)
    ensures decoded.None? <==> r == Failed(DecodeFailed)
    ensures decoded.Some? && encode(TargetSize(decoded.value.0, decoded.value.1)).None?
            <==> r == Failed(EncodeFailed(CompressionErrorText))
    ensures decoded.Some? && encode(TargetSize(decoded.value.0, decoded.value.1)).Some? ==>
              r == Encoded(Compressed(TargetSize(decoded.value.0, decoded.value.1),
                                      encode(TargetSize(decoded.value.0, decoded.value.1)).value))
    ensures r.Encoded? ==>
              r.image.size == TargetSize(decoded.value.0, decoded.value.1)
              && encode(r.image.size) == Some(r.image.blob)
  {
    match decoded
    case None => Failed(DecodeFailed)
    case Some((w, h)) =>
      var size := TargetSize(w, h);
      match encode(size)
      case None => Failed(EncodeFailed(CompressionErrorText))
      case Some(blob) => Encoded(Compressed(size, blob))
  }
}
