/**
 * Value types shared by the rendering pipeline: the half-open `Range` used to
 * address packed buffers and path-ID spaces, integer two-component sizes, and
 * an `Option` for slots that may be empty (a null `shared_ptr`).
 */
module Geometry {

  datatype Option<+T> = None | Some(value: T)

  /** A half-open interval `[start, end)`; the pipeline's unit of addressing. */
  datatype Range = Range(start: int, end: int) {

    predicate IsEmpty() {
      start == end
    }

    function Length(): int {
      end - start
    }

    /** The intervals the pipeline means to build: `end` is never below `start`. */
    predicate Valid() {
      start <= end
    }

    /** True iff `inner` lies within this range. */
    predicate Contains(inner: Range) {
      start <= inner.start && inner.end <= end
    }
  }

  /** `isEmpty()` holds exactly when `length()` is zero, and a valid range never has a negative length. */
  lemma RangeLengthLaws(r: Range)
    ensures r.IsEmpty() <==> r.Length() == 0
    ensures r.Valid() ==> r.Length() >= 0
    ensures r.Valid() && !r.IsEmpty() ==> r.Length() > 0
  {
  }

  /** An integer two-component vector (`Vector2i`): a framebuffer size or a scale factor. */
  datatype Size = Size(x: int, y: int)

  /** Component-wise product, used to go from destination pixels to supersampled pixels. */
  function Scale(s: Size, factor: Size): (r: Size)
    ensures factor == Size(1, 1) ==> r == s
    ensures s.x >= 0 && s.y >= 0 && factor.x >= 1 && factor.y >= 1 ==> r.x >= s.x && r.y >= s.y
  {
    Size(s.x * factor.x, s.y * factor.y)
  }

  /** Both components of `a` are at most those of `b`. */
  predicate FitsWithin(a: Size, b: Size) {
    a.x <= b.x && a.y <= b.y
  }

  /** Scaling preserves "fits within": a scissor of the used size never exceeds the allocated buffer. */
  lemma ScaleMonotone(a: Size, b: Size, factor: Size)
    requires FitsWithin(a, b)
    requires factor.x >= 0 && factor.y >= 0
    ensures FitsWithin(Scale(a, factor), Scale(b, factor))
  {
    MulMonotone(a.x, b.x, factor.x);
    MulMonotone(a.y, b.y, factor.y);
  }

  lemma MulMonotone(a: int, b: int, k: int)
    requires a <= b && k >= 0
    ensures a * k <= b * k
  {
    assert b * k - a * k == (b - a) * k;
  }

  /** An RGBA colour as the renderer hands it to `glClearColor`; only its being zero matters here. */
  datatype Color = Color(r: real, g: real, b: real, a: real)

  const TRANSPARENT_BLACK := Color(0.0, 0.0, 0.0, 0.0)
}
