/**
  The image-sizing and layout helpers of the camera app.

  Pixel work (decoding, drawing, matrix transforms, JPEG output) is not
  modelled: what is modelled is the integer and real arithmetic that decides
  sizes, offsets and rectangles, the choice of orientation transform, and the
  sequence of drawing calls the overlay renderer issues. Kotlin `Float`
  values are modelled as reals, so rounding error of single precision is not
  part of the model; the conversions back to `Int` are written out.
*/
module BitmapUtils {
  import opened OverlayRepository

  datatype Option<T> = None | Some(value: T)

  function Max(a: int, b: int): int { if a >= b then a else b }
  function Min(a: int, b: int): int { if a <= b then a else b }
  function MinReal(a: real, b: real): real { if a <= b then a else b }

  // ---------------------------------------------------------------------------
  // Kotlin numeric conversions
  // ---------------------------------------------------------------------------

  /** Kotlin's `Int / Int`: the quotient truncated toward zero. */
  function TruncDiv(a: int, b: int): int
    requires b > 0
  {
    if a >= 0 then a / b else -((-a) / b)
  }

  /** Euclidean division of a non-negative number: the quotient times the
      divisor is within one divisor below it. */
  lemma DivBounds(n: int, b: int)
    requires n >= 0 && b > 0
    ensures 0 <= (n / b) * b <= n < (n / b) * b + b
  {
    assert n == (n / b) * b + n % b;
  }

  /** The quotient times the divisor lies between zero and the dividend, less than one
      divisor away from it: the quotient is truncated toward zero, and negating the
      dividend negates the quotient. */
  lemma TruncDivTowardZero(a: int, b: int)
    requires b > 0
    ensures a >= 0 ==> 0 <= TruncDiv(a, b) * b <= a < TruncDiv(a, b) * b + b
    ensures a < 0 ==> TruncDiv(a, b) * b - b < a <= TruncDiv(a, b) * b <= 0
    ensures TruncDiv(-a, b) == -TruncDiv(a, b)
  {
    if a >= 0 {
      DivBounds(a, b);
    } else {
      DivBounds(-a, b);
      var q := (-a) / b;
      assert TruncDiv(a, b) * b == -(q * b);
    }
  }

  /** `Float.toInt()`: truncation toward zero. */
  function FloatToInt(x: real): (n: int)
    ensures x >= 0.0 ==> 0 <= n && n as real <= x < n as real + 1.0
    ensures x < 0.0 ==> n <= 0 && n as real - 1.0 < x <= n as real
  {
    if x >= 0.0 then x.Floor else -((-x).Floor)
  }

  /** `Float.roundToInt()`: the nearest integer, halves rounded up. */
  function RoundToInt(x: real): (n: int)
    ensures n as real - 0.5 <= x < n as real + 0.5
  {
    (x + 0.5).Floor
  }

  // ---------------------------------------------------------------------------
  // calculateInSampleSize
  // ---------------------------------------------------------------------------

  predicate IsPowerOfTwo(n: nat)
  {
    n == 1 || (n >= 2 && n % 2 == 0 && IsPowerOfTwo(n / 2))
  }

  /** The condition of the doubling loop: sampling by `s` still leaves at least
      the requested size in both directions after one more halving. */
  predicate KeepsDoubling(halfHeight: int, halfWidth: int, reqWidth: int, reqHeight: int, s: int)
    requires s > 0
  {
    TruncDiv(halfHeight, s) >= reqHeight && TruncDiv(halfWidth, s) >= reqWidth
  }

  /** A truncated quotient of at least one needs a dividend at least as large as the divisor. */
  lemma TruncDivAtLeastOne(a: int, b: int)
    requires b > 0 && TruncDiv(a, b) >= 1
    ensures a >= b
  {
  }

  /** Halving with truncation never more than halves a non-negative value. */
  lemma HalfOfNonNegative(a: int)
    requires a >= 0
    ensures 2 * TruncDiv(a, 2) <= a
  {
  }

  lemma {:induction false} PowerBelowDouble(p: nat, s: nat)
    requires IsPowerOfTwo(p) && IsPowerOfTwo(s) && p < 2 * s
    ensures p <= s
  {
    if p != 1 && s != 1 {
      PowerBelowDouble(p / 2, s / 2);
    }
  }

  /**
    The power-of-two subsampling factor for decoding an image of
    `height` x `width` pixels towards `reqWidth` x `reqHeight`.
    The result is the smallest power of two at which the loop condition
    fails, so every smaller power of two still passed it.
  */
  method CalculateInSampleSize(height: int, width: int, reqWidth: int, reqHeight: int)
    returns (inSampleSize: int)
    requires reqWidth > 0 && reqHeight > 0
    ensures inSampleSize >= 1 && IsPowerOfTwo(inSampleSize)
    ensures height <= reqHeight && width <= reqWidth ==> inSampleSize == 1
    ensures height > reqHeight || width > reqWidth ==>
      !KeepsDoubling(TruncDiv(height, 2), TruncDiv(width, 2), reqWidth, reqHeight, inSampleSize)
    ensures forall p: nat :: IsPowerOfTwo(p) && 0 < p < inSampleSize ==>
      KeepsDoubling(TruncDiv(height, 2), TruncDiv(width, 2), reqWidth, reqHeight, p)
    ensures inSampleSize == 1 || (inSampleSize <= height && inSampleSize <= width)
  {
    inSampleSize := 1;
    if height > reqHeight || width > reqWidth {
      var halfHeight := TruncDiv(height, 2);
      var halfWidth := TruncDiv(width, 2);
      while TruncDiv(halfHeight, inSampleSize) >= reqHeight && TruncDiv(halfWidth, inSampleSize) >= reqWidth
        invariant inSampleSize >= 1 && IsPowerOfTwo(inSampleSize)
        invariant forall p: nat :: IsPowerOfTwo(p) && 0 < p < inSampleSize ==>
          KeepsDoubling(halfHeight, halfWidth, reqWidth, reqHeight, p)
        invariant inSampleSize == 1 || (inSampleSize <= height && inSampleSize <= width)
        decreases height - inSampleSize
      {
        TruncDivAtLeastOne(halfHeight, inSampleSize);
        TruncDivAtLeastOne(halfWidth, inSampleSize);
        HalfOfNonNegative(height);
        HalfOfNonNegative(width);
        forall p: nat | IsPowerOfTwo(p) && 0 < p < 2 * inSampleSize
          ensures KeepsDoubling(halfHeight, halfWidth, reqWidth, reqHeight, p)
        {
          PowerBelowDouble(p, inSampleSize);
        }
        inSampleSize := inSampleSize * 2;
      }
    }
  }

  // ---------------------------------------------------------------------------
  // rotateBitmapIfRequired
  // ---------------------------------------------------------------------------

  // Values of the Orientation tag (0x0112) of TIFF Revision 6.0, as carried into Exif.
  const OrientationUndefined := 0
  const OrientationNormal := 1
  const OrientationFlipHorizontal := 2
  const OrientationRotate180 := 3
  const OrientationFlipVertical := 4
  const OrientationTranspose := 5
  const OrientationRotate90 := 6
  const OrientationTransverse := 7
  const OrientationRotate270 := 8

  /** The matrix built for an orientation: a clockwise rotation, a mirror, or nothing. */
  datatype Transform = Identity | Rotate(degrees: int) | MirrorHorizontal | MirrorVertical

  /** The `when` over the orientation value. For every value it handles, the
      transform puts the stored 0th row and 0th column on the visual edges the
      TIFF 6.0 table assigns them; every other value builds no transform. */
  function OrientationTransform(orientation: int): (t: Transform)
    ensures orientation in {1, 2, 3, 4, 6, 8} ==>
      Moved(t, Top) == Row0Side(orientation) && Moved(t, Left) == Column0Side(orientation)
    ensures t == Identity <==> orientation !in {2, 3, 4, 6, 8}
  {
    if orientation == OrientationRotate90 then Rotate(90)
    else if orientation == OrientationRotate180 then Rotate(180)
    else if orientation == OrientationRotate270 then Rotate(270)
    else if orientation == OrientationFlipHorizontal then MirrorHorizontal
    else if orientation == OrientationFlipVertical then MirrorVertical
    else Identity
  }

  /** What reading the Exif block gave: an I/O failure, or the tag (possibly absent). */
  datatype ExifRead = ReadFailed | Parsed(orientationTag: Option<int>)

  /** The bitmap that comes out: the decoded one itself, or a transformed copy. */
  datatype Oriented = Original | Transformed(transform: Transform, width: nat, height: nat)

  /** The orientation value used: the tag, or NORMAL when it is missing. */
  function OrientationOf(tag: Option<int>): int
  {
    match tag
    case Some(v) => v
    case None => OrientationNormal
  }

  /** The decoded `width` x `height` bitmap, corrected for its Exif orientation. */
  function RotateBitmapIfRequired(exif: ExifRead, width: nat, height: nat): (r: Oriented)
    ensures r == Original <==>
      exif.ReadFailed? || OrientationTransform(OrientationOf(exif.orientationTag)) == Identity
    ensures r.Transformed? ==> r.transform == OrientationTransform(OrientationOf(exif.orientationTag))
    ensures r.Transformed? && Moved(r.transform, Top) in {Left, Right} ==> r.width == height && r.height == width
    ensures r.Transformed? && Moved(r.transform, Top) in {Top, Bottom} ==> r.width == width && r.height == height
  {
    match exif
    case ReadFailed => Original
    case Parsed(tag) =>
      var t := OrientationTransform(OrientationOf(tag));
      if t == Identity then Original
      else if Moved(t, Top) in {Left, Right} then Transformed(t, height, width)
      else Transformed(t, width, height)
  }

  /** The four edges of an image. */
  datatype Side = Top | Right | Bottom | Left

  /** Where an edge goes under a quarter turn clockwise (y grows downwards). */
  function QuarterTurn(s: Side): Side
  {
    match s
    case Top => Right
    case Right => Bottom
    case Bottom => Left
    case Left => Top
  }

  function Turned(s: Side, quarters: nat): Side
    decreases quarters
  {
    if quarters == 0 then s else Turned(QuarterTurn(s), quarters - 1)
  }

  /** Where an edge of the stored image ends up once the transform is applied. */
  function Moved(t: Transform, s: Side): Side
  {
    match t
    case Identity => s
    case Rotate(d) => if d >= 0 then Turned(s, d / 90) else s
    case MirrorHorizontal => (match s case Left => Right case Right => Left case _ => s)
    case MirrorVertical => (match s case Top => Bottom case Bottom => Top case _ => s)
  }

  /** Reference table of TIFF 6.0: for each orientation value, the visual edges
      on which the stored 0th row and the stored 0th column belong. */
  function Row0Side(orientation: int): Side
    requires 1 <= orientation <= 8
  {
    if orientation <= 2 then Top
    else if orientation <= 4 then Bottom
    else if orientation == 5 || orientation == 8 then Left
    else Right
  }

  function Column0Side(orientation: int): Side
    requires 1 <= orientation <= 8
  {
    if orientation == 1 || orientation == 4 then Left
    else if orientation == 2 || orientation == 3 then Right
    else if orientation == 5 || orientation == 6 then Top
    else Bottom
  }

  /** TRANSPOSE and TRANSVERSE fall into the default branch: the image is
      returned as stored, which is not how the Exif value says to show it. */
  lemma TransposedOrientationsLeftAsStored(orientation: int, width: nat, height: nat)
    requires orientation == OrientationTranspose || orientation == OrientationTransverse
    ensures RotateBitmapIfRequired(Parsed(Some(orientation)), width, height) == Original
    ensures Moved(OrientationTransform(orientation), Top) != Row0Side(orientation)
  {
  }

  /** A missing tag, NORMAL, UNDEFINED and every value outside the table give the original bitmap. */
  lemma UnhandledOrientationsKeepOriginal(tag: Option<int>, width: nat, height: nat)
    requires OrientationOf(tag) !in {2, 3, 4, 6, 8}
    ensures RotateBitmapIfRequired(Parsed(tag), width, height) == Original
  {
  }

  // ---------------------------------------------------------------------------
  // cropCenterToAspect
  // ---------------------------------------------------------------------------

  /** The result of the centre crop: the bitmap itself, a window of it, or the
      exception `Bitmap.createBitmap` throws for a window it refuses. */
  datatype Crop = Unchanged | Window(x: int, y: int, width: int, height: int) | CreateFailed

  /** `Bitmap.createBitmap(source, x, y, w, h)`: accepts only a non-empty window inside the source. */
  function CreateBitmap(srcWidth: nat, srcHeight: nat, x: int, y: int, w: int, h: int): (c: Crop)
    ensures c.Window? <==> 0 <= x && 0 <= y && 0 < w && 0 < h && x + w <= srcWidth && y + h <= srcHeight
    ensures c.Window? ==> c == Window(x, y, w, h)
    ensures !c.Window? ==> c == CreateFailed
  {
    if 0 <= x && 0 <= y && 0 < w && 0 < h && x + w <= srcWidth && y + h <= srcHeight
    then Window(x, y, w, h)
    else CreateFailed
  }

  /** Cuts the largest centred window of aspect (at most) `targetAspect` out of
      a `width` x `height` bitmap. */
  function CropCenterToAspect(width: nat, height: nat, targetAspect: real): (c: Crop)
    ensures c == Unchanged <==>
      targetAspect <= 0.0 || width == 0 || height == 0 || width as real == targetAspect * height as real
    // an image wider than the target keeps its height and loses columns, evenly on both sides
    ensures targetAspect > 0.0 && height > 0 && width as real > targetAspect * height as real ==>
      if targetAspect * height as real < 1.0 then c == CreateFailed
      else
        && c.Window? && c.y == 0 && c.height == height
        && 0 <= c.x && c.x + c.width <= width
        && c.width as real <= targetAspect * height as real < c.width as real + 1.0
        && c.x <= width - c.width - c.x <= c.x + 1
    // an image taller than the target keeps its width and loses rows, evenly on both sides
    ensures targetAspect > 0.0 && width > 0 && width as real < targetAspect * height as real ==>
      if width as real / targetAspect < 1.0 then c == CreateFailed
      else
        && c.Window? && c.x == 0 && c.width == width
        && 0 <= c.y && c.y + c.height <= height
        && c.height as real <= width as real / targetAspect < c.height as real + 1.0
        && c.y <= height - c.height - c.y <= c.y + 1
  {
    if targetAspect <= 0.0 then Unchanged
    else if width == 0 || height == 0 then Unchanged
    else
      var currentAspect := width as real / height as real;
      AspectOrder(width, height, targetAspect);
      if currentAspect > targetAspect then
        var newWidth := Min(FloatToInt(height as real * targetAspect), width);
        var xOffset := Max(FloatToInt((width - newWidth) as real / 2.0), 0);
        CreateBitmap(width, height, xOffset, 0, newWidth, height)
      else if currentAspect < targetAspect then
        var newHeight := Min(FloatToInt(width as real / targetAspect), height);
        var yOffset := Max(FloatToInt((height - newHeight) as real / 2.0), 0);
        CreateBitmap(width, height, 0, yOffset, width, newHeight)
      else
        Unchanged
  }

  /** Comparing `width / height` with the target is comparing `width` with `target * height`,
      and then `width / target` with `height`. */
  lemma AspectOrder(width: nat, height: nat, targetAspect: real)
    requires width > 0 && height > 0 && targetAspect > 0.0
    ensures width as real / height as real > targetAspect <==> width as real > targetAspect * height as real
    ensures width as real / height as real < targetAspect <==> width as real < targetAspect * height as real
    ensures width as real < targetAspect * height as real ==> width as real / targetAspect < height as real
  {
  }

  // ---------------------------------------------------------------------------
  // The text shown on the overlay
  // ---------------------------------------------------------------------------

  /** Kotlin's `Char.isWhitespace()`: the Java whitespace controls and the Unicode
      space, line and paragraph separators. */
  predicate IsWhitespace(c: char)
  {
    var n := c as int;
    (9 <= n <= 13) || (28 <= n <= 32) || n == 0xA0 || n == 0x1680
    || (0x2000 <= n <= 0x200A) || n == 0x2028 || n == 0x2029
    || n == 0x202F || n == 0x205F || n == 0x3000
  }

  /** `String.isBlank()`: empty, or whitespace only. */
  predicate IsBlank(s: string)
  {
    forall i :: 0 <= i < |s| ==> IsWhitespace(s[i])
  }

  /** The fixed four-line text shown when no details are configured. */
  const Placeholder := "Location title" + "\n" + "Address line" + "\n" + "Lat/Long" + "\n" + "Date/Time"

  /** `details.takeIf { it.isNotBlank() } ?: placeholder`. */
  function TextBlock(details: string): (text: string)
    ensures IsBlank(details) ==> text == Placeholder
    ensures !IsBlank(details) ==> text == details
    ensures !IsBlank(text)
  {
    assert Placeholder[0] == 'L';
    if IsBlank(details) then Placeholder else details
  }

  /** Applying the fallback to its own output changes nothing. */
  lemma TextBlockIdempotent(details: string)
    ensures TextBlock(TextBlock(details)) == TextBlock(details)
  {
  }

  // ---------------------------------------------------------------------------
  // findBestTextSize
  // ---------------------------------------------------------------------------

  /** The height of the laid-out text for a text, a text size, a width and a
      line limit. The text-layout engine itself is not modelled. */
  type LayoutHeight = (string, real, int, int) -> int

  /** The layout height of one text at a fixed width and line limit, as a function of the size. */
  function HeightAt(layoutHeight: LayoutHeight, text: string, width: int, maxLines: int): real -> int
  {
    size => layoutHeight(text, size, width, maxLines)
  }

  /** The `k`-th size the search tries: one point smaller each time. */
  function Candidate(startSize: real, k: nat): real
  {
    startSize - k as real
  }

  function SizesLeft(size: real, minSize: real): nat
  {
    if size < minSize then 0 else (size - minSize).Floor + 1
  }

  /** The size the search settles on, starting at `size`. */
  function BestTextSize(heightAt: real -> int, maxHeight: int, size: real, minSize: real): (best: real)
    ensures best == minSize || heightAt(best) <= maxHeight
    decreases SizesLeft(size, minSize)
  {
    if size < minSize then minSize
    else if heightAt(size) <= maxHeight then size
    else BestTextSize(heightAt, maxHeight, size - 1.0, minSize)
  }

  /** Some size the search tries (not below `minSize`) is short enough. */
  ghost predicate SomeSizeFits(heightAt: real -> int, maxHeight: int, startSize: real, minSize: real)
  {
    exists k: nat :: minSize <= Candidate(startSize, k) && heightAt(Candidate(startSize, k)) <= maxHeight
  }

  /** The smallest size the search tries. */
  function LastCandidate(startSize: real, minSize: real): real
    requires minSize <= startSize
  {
    Candidate(startSize, (startSize - minSize).Floor)
  }

  /** The result never drops below `minSize`, and never exceeds a start that is at least `minSize`. */
  lemma {:induction false} BestTextSizeBounds(heightAt: real -> int, maxHeight: int, startSize: real, minSize: real)
    ensures minSize <= BestTextSize(heightAt, maxHeight, startSize, minSize)
    ensures minSize <= startSize ==> BestTextSize(heightAt, maxHeight, startSize, minSize) <= startSize
    decreases SizesLeft(startSize, minSize)
  {
    if minSize <= startSize && heightAt(startSize) > maxHeight {
      BestTextSizeBounds(heightAt, maxHeight, startSize - 1.0, minSize);
    }
  }

  /** Every size tried before the result was too tall. */
  lemma {:induction false} BestTextSizeLargerTooTall(heightAt: real -> int, maxHeight: int, startSize: real, minSize: real, j: nat)
    requires minSize <= Candidate(startSize, j)
    requires BestTextSize(heightAt, maxHeight, startSize, minSize) < Candidate(startSize, j)
    ensures heightAt(Candidate(startSize, j)) > maxHeight
    decreases j
  {
    if j > 0 {
      assert Candidate(startSize - 1.0, j - 1) == Candidate(startSize, j);
      BestTextSizeLargerTooTall(heightAt, maxHeight, startSize - 1.0, minSize, j - 1);
    }
  }

  /** When some tried size fits, the result is a tried size and it fits. */
  lemma {:induction false} BestTextSizeFits(heightAt: real -> int, maxHeight: int, startSize: real, minSize: real)
    requires SomeSizeFits(heightAt, maxHeight, startSize, minSize)
    ensures heightAt(BestTextSize(heightAt, maxHeight, startSize, minSize)) <= maxHeight
    ensures exists k: nat :: BestTextSize(heightAt, maxHeight, startSize, minSize) == Candidate(startSize, k)
    decreases SizesLeft(startSize, minSize)
  {
    var k: nat :| minSize <= Candidate(startSize, k) && heightAt(Candidate(startSize, k)) <= maxHeight;
    if heightAt(startSize) <= maxHeight {
      assert BestTextSize(heightAt, maxHeight, startSize, minSize) == Candidate(startSize, 0);
    } else {
      assert k > 0;
      assert Candidate(startSize - 1.0, k - 1) == Candidate(startSize, k);
      BestTextSizeFits(heightAt, maxHeight, startSize - 1.0, minSize);
      var k': nat :| BestTextSize(heightAt, maxHeight, startSize - 1.0, minSize) == Candidate(startSize - 1.0, k');
      assert BestTextSize(heightAt, maxHeight, startSize, minSize) == Candidate(startSize, k' + 1);
    }
  }

  /** When no tried size fits (or nothing is tried at all), the result is `minSize`. */
  lemma {:induction false} BestTextSizeNoFit(heightAt: real -> int, maxHeight: int, startSize: real, minSize: real)
    requires !SomeSizeFits(heightAt, maxHeight, startSize, minSize)
    ensures BestTextSize(heightAt, maxHeight, startSize, minSize) == minSize
    decreases SizesLeft(startSize, minSize)
  {
    if minSize <= startSize {
      assert heightAt(Candidate(startSize, 0)) > maxHeight;
      var next := startSize - 1.0;
      forall k: nat | minSize <= Candidate(next, k)
        ensures heightAt(Candidate(next, k)) > maxHeight
      {
        assert Candidate(next, k) == Candidate(startSize, k + 1);
      }
      BestTextSizeNoFit(heightAt, maxHeight, next, minSize);
    }
  }

  /** The text size a new paint starts with on Android. */
  const PaintDefaultTextSize := 12.0

  /** The paint whose text size the search sets before every measurement. */
  class TextPaint {
    var textSize: real

    constructor (initialSize: real)
      ensures textSize == initialSize
    {
      textSize := initialSize;
    }
  }

  /**
    Tries `startSize`, `startSize - 1`, ... down to `minSize` and returns the
    first size at which `text` laid out `width` wide in at most `maxLines`
    lines is no taller than `maxHeight`; `minSize` when none is. Each try
    sets the paint's text size first.
  */
  method FindBestTextSize(text: string, paint: TextPaint, width: int, maxHeight: int, maxLines: int,
                          startSize: real, minSize: real, layoutHeight: LayoutHeight)
    returns (best: real)
    modifies paint
    ensures best == BestTextSize(HeightAt(layoutHeight, text, width, maxLines), maxHeight, startSize, minSize)
    ensures startSize < minSize ==> paint.textSize == old(paint.textSize)
    ensures minSize <= startSize ==>
      paint.textSize == (if SomeSizeFits(HeightAt(layoutHeight, text, width, maxLines), maxHeight, startSize, minSize)
                         then best else LastCandidate(startSize, minSize))
  {
    ghost var heightAt := HeightAt(layoutHeight, text, width, maxLines);
    var size := startSize;
    ghost var k: nat := 0;
    while size >= minSize
      invariant size == Candidate(startSize, k)
      invariant BestTextSize(heightAt, maxHeight, size, minSize) == BestTextSize(heightAt, maxHeight, startSize, minSize)
      invariant forall j: nat :: j < k ==> minSize <= Candidate(startSize, j) && heightAt(Candidate(startSize, j)) > maxHeight
      invariant k == 0 ==> paint.textSize == old(paint.textSize)
      invariant k > 0 ==> paint.textSize == Candidate(startSize, k - 1)
      decreases SizesLeft(size, minSize)
    {
      paint.textSize := size;
      if layoutHeight(text, paint.textSize, width, maxLines) <= maxHeight {
        assert heightAt(Candidate(startSize, k)) <= maxHeight;
        return size;
      }
      size := size - 1.0;
      k := k + 1;
    }
    forall j: nat | minSize <= Candidate(startSize, j)
      ensures heightAt(Candidate(startSize, j)) > maxHeight
    {
    }
    return minSize;
  }

  // ---------------------------------------------------------------------------
  // renderOverlayOnBitmap
  // ---------------------------------------------------------------------------

  datatype RectF = RectF(left: real, top: real, right: real, bottom: real)
  {
    function CenterX(): real { (left + right) / 2.0 }
    function CenterY(): real { (top + bottom) / 2.0 }
  }

  /** The sizes and rectangles of the overlay on a `width` x `height` photo. */
  datatype OverlayLayout = OverlayLayout(
    overlayHeight: int,
    bottomMargin: int,
    overlayTop: int,
    padding: real,
    leftColumnWidth: real,
    pillHeight: real,
    pillRect: RectF,
    thumbSize: real,
    thumbRect: RectF,
    textStartX: real,
    textWidth: int,
    textHeight: int,
    baseSize: real,
    minSize: real)

  function OverlayLayoutFor(width: nat, height: nat): (l: OverlayLayout)
    // the nominal band ends one margin above the bottom (the clamp never fires, see
    // OverlayTopNeverClamped) and never starts above the photo
    ensures 0 <= l.overlayHeight && 0 <= l.bottomMargin
    ensures l.overlayTop == Max(0, height - l.overlayHeight - l.bottomMargin)
    ensures 0 <= l.overlayTop <= height
    // the thumbnail is at most one column wide and ends no lower than a padding above the bottom
    ensures l.thumbSize <= l.leftColumnWidth
    ensures l.thumbRect.right - l.thumbRect.left == l.thumbSize
    ensures l.thumbRect.bottom <= height as real - l.padding
    // the pill sits exactly above the thumbnail, as wide as it
    ensures l.pillRect.left == l.thumbRect.left && l.pillRect.right == l.thumbRect.right
    ensures l.overlayTop as real <= l.pillRect.top <= l.pillRect.bottom <= l.thumbRect.top
    // the text box starts right of the thumbnail and is never empty
    ensures l.textStartX == l.thumbRect.right + l.padding
    ensures l.textWidth >= 1 && l.textHeight >= 1
    ensures 0.0 <= l.minSize <= l.baseSize
  {
    var overlayHeight := RoundToInt(height as real * 0.22);
    var bottomMargin := RoundToInt(height as real * 0.03);
    var overlayTop := Max(height - overlayHeight - bottomMargin, 0);
    var padding := overlayHeight as real * 0.06;
    var leftColumnWidth := width as real * 0.33;
    var pillHeight := overlayHeight as real * 0.22;
    var pillTop := overlayTop as real + padding;
    var pillBottom := pillTop + pillHeight * 0.7;
    var columnGap := overlayHeight as real * 0.06;
    var thumbTop := pillBottom + columnGap;
    var thumbSize := MinReal(leftColumnWidth, height as real - padding - thumbTop);
    var thumbRect := RectF(padding, thumbTop, padding + thumbSize, thumbTop + thumbSize);
    var pillRect := RectF(thumbRect.left, pillTop, thumbRect.right, pillBottom);
    var textStartX := thumbRect.right + padding;
    var textAvailableWidth := width as real - textStartX - padding;
    var textAvailableHeight := overlayHeight as real - padding * 2.0;
    OverlayLayout(
      overlayHeight, bottomMargin, overlayTop, padding, leftColumnWidth, pillHeight,
      pillRect, thumbSize, thumbRect, textStartX,
      Max(RoundToInt(textAvailableWidth), 1), Max(RoundToInt(textAvailableHeight), 1),
      overlayHeight as real * 0.15, overlayHeight as real * 0.08)
  }

  /** The rounded heights of the panel and its bottom margin never add up to
      more than the photo, so the clamp of the panel top never fires. */
  lemma OverlayTopNeverClamped(width: nat, height: nat)
    ensures var l := OverlayLayoutFor(width, height);
      l.overlayTop + l.overlayHeight + l.bottomMargin == height
  {
  }

  // Colours of the drawing calls, as ARGB.
  const PanelColor := 0xAA11_1111
  const PillColor := 0xFF2F_6FED
  const White := 0xFFFF_FFFF
  const PlaceholderColor := 0xFF30_3030

  const MaxLines := 5

  /** The horizontal alignment of a text drawn at `x`: starting there, or centred on it. */
  datatype TextAlign = AlignLeft | AlignCenter

  /** One drawing call on the canvas. */
  datatype DrawOp =
    | DrawRoundRect(rect: RectF, radius: real, argb: int)
    | DrawText(text: string, x: real, y: real, textSize: real, argb: int, align: TextAlign, bold: bool)
    | DrawMapThumbnail(dest: RectF, corner: real)
    | DrawTextLayout(text: string, x: real, y: real, width: int, textSize: real, maxLines: int)

  /** The canvas over the mutable copy of the photo: it records the drawing calls made on it. */
  class Canvas {
    const width: nat
    const height: nat
    var ops: seq<DrawOp>

    constructor (width: nat, height: nat)
      ensures this.width == width && this.height == height && ops == []
    {
      this.width := width;
      this.height := height;
      ops := [];
    }

    method Draw(op: DrawOp)
      modifies this
      ensures ops == old(ops) + [op]
    {
      ops := ops + [op];
    }
  }

  /**
    Draws the overlay onto a copy of a `width` x `height` photo: the panel,
    the "Check In" pill with its label, the map thumbnail (or a placeholder
    box with "No map"), and the details text at the largest size that fits.
    Returns the drawing calls in the order they are made.
  */
  method RenderOverlayOnBitmap(width: nat, height: nat, config: OverlayConfig, hasMap: bool,
                               layoutHeight: LayoutHeight)
    returns (ops: seq<DrawOp>)
    ensures var l := OverlayLayoutFor(width, height);
      var text := TextBlock(config.details);
      && |ops| == (if hasMap then 5 else 6)
      && ops[0] == DrawRoundRect(RectF(0.0, l.overlayTop as real, width as real, height as real),
                                 l.overlayHeight as real * 0.08, PanelColor)
      && ops[1] == DrawRoundRect(l.pillRect, l.pillHeight / 2.0, PillColor)
      && ops[2] == DrawText("Check In", l.pillRect.CenterX(), l.pillRect.CenterY() + l.pillHeight * 0.5 * 0.35,
                            l.pillHeight * 0.5, White, AlignCenter, true)
      && (hasMap ==> ops[3] == DrawMapThumbnail(l.thumbRect, l.overlayHeight as real * 0.06))
      && (!hasMap ==> ops[3] == DrawRoundRect(l.thumbRect, l.overlayHeight as real * 0.06, PlaceholderColor)
                      && ops[4] == DrawText("No map", l.thumbRect.CenterX(),
                                            l.thumbRect.CenterY() + l.overlayHeight as real * 0.11 / 2.0,
                                            l.overlayHeight as real * 0.11, White, AlignCenter, false))
      && ops[|ops| - 1].DrawTextLayout?
      && ops[|ops| - 1].text == text
      && ops[|ops| - 1].x == l.textStartX
      && ops[|ops| - 1].y == l.overlayTop as real + l.padding
      && ops[|ops| - 1].width == l.textWidth
      && ops[|ops| - 1].maxLines == MaxLines
      && ops[|ops| - 1].textSize
         == BestTextSize(HeightAt(layoutHeight, text, l.textWidth, MaxLines), l.textHeight, l.baseSize, l.minSize)
      && l.minSize <= ops[|ops| - 1].textSize <= l.baseSize
  {
    var canvas := new Canvas(width, height);
    var l := OverlayLayoutFor(width, height);

    canvas.Draw(DrawRoundRect(RectF(0.0, l.overlayTop as real, width as real, height as real),
                              l.overlayHeight as real * 0.08, PanelColor));
    canvas.Draw(DrawRoundRect(l.pillRect, l.pillHeight / 2.0, PillColor));
    var pillTextSize := l.pillHeight * 0.5;
    canvas.Draw(DrawText("Check In", l.pillRect.CenterX(), l.pillRect.CenterY() + pillTextSize * 0.35,
                         pillTextSize, White, AlignCenter, true));
    var thumbCorner := l.overlayHeight as real * 0.06;
    if hasMap {
      canvas.Draw(DrawMapThumbnail(l.thumbRect, thumbCorner));
    } else {
      canvas.Draw(DrawRoundRect(l.thumbRect, thumbCorner, PlaceholderColor));
      var labelSize := l.overlayHeight as real * 0.11;
      canvas.Draw(DrawText("No map", l.thumbRect.CenterX(), l.thumbRect.CenterY() + labelSize / 2.0,
                           labelSize, White, AlignCenter, false));
    }

    var textBlock := TextBlock(config.details);
    var textPaint := new TextPaint(PaintDefaultTextSize);
    var bestSize := FindBestTextSize(textBlock, textPaint, l.textWidth, l.textHeight, MaxLines,
                                     l.baseSize, l.minSize, layoutHeight);
    textPaint.textSize := bestSize;
    BestTextSizeBounds(HeightAt(layoutHeight, textBlock, l.textWidth, MaxLines), l.textHeight, l.baseSize, l.minSize);
    canvas.Draw(DrawTextLayout(textBlock, l.textStartX, l.overlayTop as real + l.padding,
                               l.textWidth, textPaint.textSize, MaxLines));
    ops := canvas.ops;
  }
}
