/** What the scripts hand to their plot lines: `set_data(xs, ys)` takes a
    curve, `set_data(x, y)` with two scalars a single point. */
module Plot {

  datatype Curve = Curve(xs: seq<real>, ys: seq<real>)

  datatype Point = Point(x: real, y: real)

  /** A curve can be drawn when every x value has its y value. */
  predicate Paired(c: Curve)
  {
    |c.xs| == |c.ys|
  }
}
