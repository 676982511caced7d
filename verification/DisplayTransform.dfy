/**
 * From clicks on a subsampled image back to original pixels
 * (src/fh_agent/evals/spatial_annotation_ui.py, `PpmDisplayTransform`).
 */
module DisplayTransform {
  import opened Prelude

  type Point = (int, int)

  function CeilingDivide(value: nat, divisor: nat): nat
    requires divisor > 0
  {
    (value + divisor - 1) / divisor
  }

  datatype Transform = Transform(width: nat, height: nat, factor: nat, x: int, y: int) {
    /** What `__post_init__` admits. */
    predicate Valid() { width > 0 && height > 0 && factor > 0 }

    function DisplayWidth(): nat requires Valid() { CeilingDivide(width, factor) }

    function DisplayHeight(): nat requires Valid() { CeilingDivide(height, factor) }
  }

  function Max(a: int, b: int): int { if a < b then b else a }

  function Min(a: int, b: int): int { if a < b then a else b }

  datatype TransformError = BadMaximum | BadDimensions

  function FittedTo(width: nat, height: nat, maxWidth: int, maxHeight: int, x: int, y: int)
    : Result<Transform, TransformError>
  {
    if maxWidth <= 0 || maxHeight <= 0 then Err(BadMaximum)
    else if width == 0 || height == 0 then Err(BadDimensions)
    else Ok(Transform(width, height, Max(1, Max(CeilingDivide(width, maxWidth), CeilingDivide(height, maxHeight))), x,
        y))
  }

  function DisplayToOriginal(t: Transform, p: Point): Option<Point>
    requires t.Valid()
  {
    var lx, ly := p.0 - t.x, p.1 - t.y;
    if 0 <= lx < t.DisplayWidth() && 0 <= ly < t.DisplayHeight() then
      Some((Min(t.width - 1, lx * t.factor), Min(t.height - 1, ly * t.factor)))
    else None
  }

  /** Where an overlay is drawn for an original pixel (`_draw_point`): the display offset is not added. */
  function DrawnAt(t: Transform, p: Point): Point
    requires t.Valid()
  {
    (p.0 / t.factor, p.1 / t.factor)
  }

  lemma CeilingLeast(value: nat, divisor: nat, q: nat)
    requires divisor > 0
    ensures q < CeilingDivide(value, divisor) <==> q * divisor < value
  {
    var c := CeilingDivide(value, divisor);
    DivisionBounds(value + divisor - 1, divisor);
    if q < c {
      Scaled(q + 1, c, divisor);
      Distributed(q, divisor);
    } else {
      Scaled(c, q, divisor);
      Distributed(c, divisor);
    }
  }

  lemma Distributed(q: int, n: nat)
    ensures (q + 1) * n == q * n + n
  {}

  /** The chosen factor makes both display dimensions fit, and no smaller factor would. */
  lemma FittedFits(width: nat, height: nat, maxWidth: int, maxHeight: int, x: int, y: int)
    ensures var r := FittedTo(width, height, maxWidth, maxHeight, x, y);
      && (r.Ok? <==> width > 0 && height > 0 && maxWidth > 0 && maxHeight > 0)
      && (r == Err(BadMaximum) <==> maxWidth <= 0 || maxHeight <= 0)
      && (r.Ok? ==> r.value.width == width && r.value.height == height && r.value.x == x && r.value.y == y)
    ensures var r := FittedTo(width, height, maxWidth, maxHeight, x, y);
      r.Ok? ==>
        && r.value.Valid() && r.value.DisplayWidth() <= maxWidth && r.value.DisplayHeight() <= maxHeight
        && forall f: nat :: 0 < f < r.value.factor
                            ==> CeilingDivide(width, f) > maxWidth || CeilingDivide(height, f) > maxHeight
  {
    var r := FittedTo(width, height, maxWidth, maxHeight, x, y);
    if r.Ok? {
      FitsExactly(width, maxWidth, r.value.factor);
      FitsExactly(height, maxHeight, r.value.factor);
      forall f: nat | 0 < f < r.value.factor ensures CeilingDivide(width, f) > maxWidth
          || CeilingDivide(height, f) > maxHeight {
        FitsExactly(width, maxWidth, f);
        FitsExactly(height, maxHeight, f);
      }
    }
  }

  lemma FitsExactly(size: nat, limit: nat, factor: nat)
    requires limit > 0 && factor > 0
    ensures CeilingDivide(size, factor) <= limit <==> CeilingDivide(size, limit) <= factor
  {
    CeilingLeast(size, factor, limit);
    CeilingLeast(size, limit, factor);
    assert limit * factor == factor * limit;
  }

  /** Whole products divide back. */
  lemma ProductDivides(q: int, n: nat)
    requires n > 0
    ensures q * n / n == q
  {
    Distributed(q, n);
    QuotientIs(q * n, q, n);
  }

  lemma AxisRoundTrip(size: nat, factor: nat, local: int)
    requires factor > 0 && 0 <= local < CeilingDivide(size, factor)
    ensures 0 <= local * factor < size && local * factor / factor == local
  {
    CeilingLeast(size, factor, local);
    ProductDivides(local, factor);
    Scaled(0, local, factor);
  }

  /**
   * A click inside the display maps to an original pixel of the image, the clamp to the last pixel
   * never takes effect, and the pixel's overlay is drawn at the click less the display offset: at the
   * very click exactly when there is no offset.
   */
  lemma ClickRoundTrip(t: Transform, p: Point)
    requires t.Valid()
    ensures var q := DisplayToOriginal(t, p);
      q.Some? <==> t.x <= p.0 && (p.0 - t.x) * t.factor < t.width && t.y <= p.1 && (p.1 - t.y) * t.factor < t.height
    ensures var q := DisplayToOriginal(t, p);
      q.Some? ==>
        && q.value == ((p.0 - t.x) * t.factor, (p.1 - t.y) * t.factor)
        && 0 <= q.value.0 < t.width && 0 <= q.value.1 < t.height
        && DrawnAt(t, q.value) == (p.0 - t.x, p.1 - t.y)
        && (DrawnAt(t, q.value) == p <==> t.x == 0 && t.y == 0)
  {
    if p.0 >= t.x && p.1 >= t.y {
      CeilingLeast(t.width, t.factor, p.0 - t.x);
      CeilingLeast(t.height, t.factor, p.1 - t.y);
    }
    if DisplayToOriginal(t, p).Some? {
      AxisRoundTrip(t.width, t.factor, p.0 - t.x);
      AxisRoundTrip(t.height, t.factor, p.1 - t.y);
      hide CeilingDivide;
    }
  }

  lemma AxisDrawn(size: nat, factor: nat, pixel: nat)
    requires factor > 0 && pixel < size
    ensures 0 <= pixel / factor < CeilingDivide(size, factor)
  {
    hide CeilingDivide;
    DivisionBounds(pixel, factor);
    FloorLeast(size, factor, pixel / factor);
  }

  lemma FloorLeast(size: nat, factor: nat, q: int)
    requires factor > 0 && q * factor < size && 0 < (q + 1) * factor
    ensures 0 <= q < CeilingDivide(size, factor)
  {
    hide CeilingDivide;
    Scaled(q + 1, 0, factor);
    if q >= 0 { CeilingLeast(size, factor, q); }
  }

  /** A click on the overlay of any pixel finds the display exactly when there is no offset. */
  lemma PixelDrawnInside(t: Transform, p: Point)
    requires t.Valid() && 0 <= p.0 < t.width && 0 <= p.1 < t.height
    ensures 0 <= DrawnAt(t, p).0 < t.DisplayWidth() && 0 <= DrawnAt(t, p).1 < t.DisplayHeight()
    ensures t.x == 0 && t.y == 0 ==> DisplayToOriginal(t, DrawnAt(t, p)).Some?
  {
    AxisDrawn(t.width, t.factor, p.0);
    AxisDrawn(t.height, t.factor, p.1);
    hide CeilingDivide;
  }

  /** With any offset the overlay of some corner pixel lies outside the displayed image. */
  lemma OffsetDrawsOutside(t: Transform) returns (p: Point)
    requires t.Valid() && (t.x != 0 || t.y != 0)
    ensures 0 <= p.0 < t.width && 0 <= p.1 < t.height && DisplayToOriginal(t, DrawnAt(t, p)).None?
  {
    p := (if t.x < 0 then t.width - 1 else 0, if t.y < 0 then t.height - 1 else 0);
    LastDrawn(t.width, t.factor);
    LastDrawn(t.height, t.factor);
    ProductDivides(0, t.factor);
    hide CeilingDivide;
  }

  lemma LastDrawn(size: nat, factor: nat)
    requires factor > 0 && size > 0
    ensures (size - 1) / factor == CeilingDivide(size, factor) - 1
  {
    var c := CeilingDivide(size, factor);
    CeilingLeast(size, factor, 0);
    CeilingLeast(size, factor, c - 1);
    CeilingLeast(size, factor, c);
    hide CeilingDivide;
    QuotientIs(size - 1, c - 1, factor);
  }
}
