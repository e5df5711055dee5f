/** The value model shared by every stage of the RSEI pipeline.

    A raster band is looked at one pixel at a time: a pixel either holds a
    value or is masked (no-data). A band over the region of interest is the
    sequence of its pixels. Floating point is modelled by exact reals.
 */
module Raster {

  datatype Option<+T> = None | Some(value: T)

  datatype Result<+T> = Success(value: T) | Failure(error: Error) {
    predicate IsFailure() {
      Failure?
    }

    function PropagateFailure<U>(): Result<U>
      requires Failure?
    {
      Failure(error)
    }

    function Extract(): T
      requires Success?
    {
      value
    }
  }

  /** The one failure the script can meet: a region statistic it reads with
      `stats.get(key)` is absent, because the band has no valid pixel in the
      region or the key names no band of the reduced image. */
  datatype Error = MissingStatistic(key: string)

  /** One band's value at one pixel; `None` is a masked pixel. */
  type Pixel = Option<real>

  /** The optical and thermal bands of one Landsat 8 pixel: `SR_B1`..`SR_B7`
      and `ST_B10`, in the order `select(['SR_B.*']).addBands(ST_B10)` stacks them. */
  datatype Bands = Bands(
    b1: Pixel, b2: Pixel, b3: Pixel, b4: Pixel, b5: Pixel, b6: Pixel, b7: Pixel,
    st10: Pixel)

  /** A single-band image over the region: its band name and its pixels. */
  datatype Band = Band(name: string, pixels: seq<Pixel>)

  const MASKED_BANDS: Bands := Bands(None, None, None, None, None, None, None, None)

  // Per-pixel image arithmetic: a masked operand masks the result.

  function Add(a: Pixel, b: Pixel): Pixel {
    if a.Some? && b.Some? then Some(a.value + b.value) else None
  }

  function Sub(a: Pixel, b: Pixel): Pixel {
    if a.Some? && b.Some? then Some(a.value - b.value) else None
  }

  function Mul(a: Pixel, c: real): Pixel {
    if a.Some? then Some(a.value * c) else None
  }

  function AddConst(a: Pixel, c: real): Pixel {
    if a.Some? then Some(a.value + c) else None
  }

  /** Division; a zero divisor gives a masked pixel rather than a value. */
  function Div(a: Pixel, b: Pixel): Pixel {
    if a.Some? && b.Some? && b.value != 0.0 then Some(a.value / b.value) else None
  }

  /** `pow(2)` */
  function Square(a: Pixel): Pixel {
    if a.Some? then Some(a.value * a.value) else None
  }

  /** `max(c)` against a constant */
  function MaxConst(a: Pixel, c: real): Pixel {
    if a.Some? then Some(if a.value < c then c else a.value) else None
  }

  /** Applies a per-pixel rule to every pixel of a band. */
  function MapPixels<T, U>(s: seq<T>, f: T -> U): (r: seq<U>)
    ensures |r| == |s|
    ensures forall i :: 0 <= i < |s| ==> r[i] == f(s[i])
  {
    seq(|s|, i requires 0 <= i < |s| => f(s[i]))
  }

  /** Every pixel of the band is masked. */
  predicate AllMasked(s: seq<Pixel>) {
    forall i :: 0 <= i < |s| ==> s[i].None?
  }
}
