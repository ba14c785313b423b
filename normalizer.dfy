/**
 * The dimension computation of the image pre-processing step: before an
 * uploaded image is re-encoded, a side longer than 1024 pixels is scaled down
 * so that the longer side is exactly 1024, keeping the aspect ratio up to
 * rounding. Decoding, drawing onto a white canvas and lossy encoding are
 * opaque here: a source image is only its decoded size, or a failure.
 */
module Normalizer {
  import opened Wrappers

  const MaxDimension: nat := 1024

  /**
   * JavaScript's `Math.round(n / d)` for non-negative `n` and positive `d`:
   * the unique integer `r` with `r - 1/2 <= n/d < r + 1/2` (halves round up).
   */
  function RoundRatio(n: nat, d: nat): (r: nat)
    requires d > 0
    ensures d * (2 * r - 1) <= 2 * n < d * (2 * r + 1)
  {
    var q := (2 * n + d) / (2 * d);
    DivBracket(2 * n + d, 2 * d);
    q
  }

  lemma DivBracket(x: nat, y: nat)
    requires y > 0
    ensures y * (x / y) <= x < y * (x / y) + y
  {
  }

  /** The bracket determines the rounding: nothing else satisfies it. */
  lemma RoundRatioUnique(n: nat, d: nat, r: int)
    requires d > 0
    requires d * (2 * r - 1) <= 2 * n < d * (2 * r + 1)
    ensures r == RoundRatio(n, d)
  {
    var q := RoundRatio(n, d);
    BracketsOrdered(n, d, r, q);
    BracketsOrdered(n, d, q, r);
  }

  /** A bracket whose upper end is above `2 * n` sits no lower than one whose lower end is at most `2 * n`. */
  lemma BracketsOrdered(n: nat, d: nat, r: int, q: int)
    requires d > 0
    requires 2 * n < d * (2 * r + 1) && d * (2 * q - 1) <= 2 * n
    ensures q <= r
  {
    if q > r {
      MulLeftMono(d, 2 * r + 1, 2 * q - 1);
    }
  }

  lemma MulLeftMono(d: nat, a: int, b: int)
    requires a <= b
    ensures d * a <= d * b
  {
  }

  /** Rounding a smaller numerator never gives a larger result. */
  lemma RoundRatioMonotone(n1: nat, n2: nat, d: nat)
    requires d > 0 && n1 <= n2
    ensures RoundRatio(n1, d) <= RoundRatio(n2, d)
  {
    BracketsOrdered(n2, d, RoundRatio(n2, d), RoundRatio(n1, d));
  }

  /** A numerator larger by at least `d` rounds to at least one more. */
  lemma RoundRatioStep(n1: nat, n2: nat, d: nat)
    requires d > 0 && n1 + d <= n2
    ensures RoundRatio(n1, d) + 1 <= RoundRatio(n2, d)
  {
    var r1, r2 := RoundRatio(n1, d), RoundRatio(n2, d);
    assert d * (2 * (r1 + 1) - 1) == d * (2 * r1 + 1) by {
      assert 2 * (r1 + 1) - 1 == 2 * r1 + 1;
    }
    BracketsOrdered(n2, d, r2, r1 + 1);
  }

  /** A side no longer than the longer side scales to at most the maximum. */
  function ScaledSide(side: nat, longer: nat): (r: nat)
    requires 0 < longer && side <= longer
    ensures r <= MaxDimension
    ensures longer * (2 * r - 1) <= 2 * side * MaxDimension < longer * (2 * r + 1)
  {
    var r := RoundRatio(side * MaxDimension, longer);
    assert r <= MaxDimension by {
      if r > MaxDimension {
        MulLeftMono(longer, 2 * MaxDimension + 1, 2 * r - 1);
        MulLeftMono(MaxDimension, side, longer);
        assert false;
      }
    }
    r
  }

  datatype Dimensions = Dimensions(width: nat, height: nat)

  /** The size the canvas is given for a decoded image of `width` by `height`. */
  function FitWithin(width: nat, height: nat): (r: Dimensions)
    ensures width <= MaxDimension && height <= MaxDimension ==> r == Dimensions(width, height)
    ensures width > MaxDimension || height > MaxDimension ==>
      r.width <= MaxDimension && r.height <= MaxDimension &&
      (if width > height then r.width == MaxDimension && r.height == ScaledSide(height, width)
       else r.height == MaxDimension && r.width == ScaledSide(width, height))
  {
    if width > MaxDimension || height > MaxDimension then
      if width > height then Dimensions(MaxDimension, ScaledSide(height, width))
      else Dimensions(ScaledSide(width, height), MaxDimension)
    else Dimensions(width, height)
  }

  /** The resize step as the source writes it: `width` and `height` reassigned in place. */
  method ResizeDimensions(imgWidth: nat, imgHeight: nat) returns (width: nat, height: nat)
    ensures Dimensions(width, height) == FitWithin(imgWidth, imgHeight)
    ensures width <= MaxDimension && height <= MaxDimension
  {
    width := imgWidth;
    height := imgHeight;
    if width > MaxDimension || height > MaxDimension {
      if width > height {
        height := ScaledSide(height, width);
        width := MaxDimension;
      } else {
        width := ScaledSide(width, height);
        height := MaxDimension;
      }
    }
  }

  /** An uploaded file as far as pre-processing sees it. */
  datatype SourceImage =
    | Decodable(width: nat, height: nat)  // decodes to an image of this size
    | Undecodable                         // reading or decoding fails
    | NoCanvas                            // no 2D drawing context can be obtained

  /** The compressed JPEG sent to the remote service; its bytes are opaque. */
  datatype Payload = Payload(size: Dimensions, mimeType: string)

  const JpegMime := "image/jpeg"
  const CanvasFailedMessage := "Canvas context failed"

  /**
   * Pre-processing of one file. A decode failure rejects with the browser's
   * error event, which has no message; it is modelled as the empty message.
   */
  function Normalize(src: SourceImage): (r: Result<Payload, string>)
    ensures src.Decodable? <==> r.Ok?
    ensures r.Ok? ==> r.value.mimeType == JpegMime &&
                      r.value.size.width <= MaxDimension && r.value.size.height <= MaxDimension
    ensures src.Decodable? ==> r == Ok(Payload(FitWithin(src.width, src.height), JpegMime))
    ensures src.NoCanvas? ==> r == Err(CanvasFailedMessage)
    ensures src.Undecodable? ==> r == Err("")
  {
    match src
    case Decodable(w, h) => Ok(Payload(FitWithin(w, h), JpegMime))
    case Undecodable => Err("")
    case NoCanvas => Err(CanvasFailedMessage)
  }

  method ProcessImage(src: SourceImage) returns (r: Result<Payload, string>)
    ensures r == Normalize(src)
  {
    match src {
      case Decodable(w, h) =>
        var width, height := ResizeDimensions(w, h);
        r := Ok(Payload(Dimensions(width, height), JpegMime));
      case Undecodable =>
        r := Err("");
      case NoCanvas =>
        r := Err(CanvasFailedMessage);
    }
  }
}
