/** The arrays `AnimatedConvolution` (main.py) computes once in its
    constructor, and what each of its animation callbacks hands to the plot
    for frame i. */
module AnimatedConvolution {
  import opened PyArrays
  import opened SlidingWindow
  import opened Plot

  /** The time grid is `np.linspace(0.0, Stop, n)`; the source uses n = 2000. */
  const Stop: real := 1000.0

  /** The factor applied to the plotted product curve. */
  const MultipliedScaling: real := 2.0

  /** The fields of an `AnimatedConvolution` that the animation reads. The
      figure and its axes are not modelled. */
  datatype Scene = Scene(
    repeat: bool,
    t: seq<real>,
    length: int,
    slsT: seq<real>,
    slsTPadded: seq<real>,
    e: seq<real>,
    deDt: seq<real>,
    convolved: seq<real>,
    multipliedScaling: real)

  /** How the constructor relates the fields: every signal is sampled on the
      grid, the padded kernel is the flipped zero-padded relaxation kernel,
      and each convolution sample is a causal sum scaled by the grid spacing. */
  ghost predicate Valid(s: Scene)
  {
    && s.length == |s.t| >= 2
    && |s.slsT| == |s.e| == |s.deDt| == s.length
    && s.slsTPadded == PaddedFlipped(s.slsT)
    && s.convolved == RiemannConv(s.slsT, s.deDt, Gradient(s.t))
    && s.multipliedScaling == MultipliedScaling
  }

  /** `AnimatedConvolution.__init__` up to the figure. The relaxation kernel
      `SLS(t, 0.15, 0.5, 100.0)`, the strain load and the strain rate are
      closed forms given here as the functions sls, strain and strainRate. */
  function NewScene(repeat: bool, n: nat, sls: real -> real, strain: real -> real,
                    strainRate: real -> real): (s: Scene)
    requires n >= 2
    ensures Valid(s)
    ensures s.repeat == repeat && s.length == n && s.multipliedScaling == MultipliedScaling
    ensures s.t == Linspace(0.0, Stop, n)
    ensures forall k :: 0 <= k < n ==>
      s.slsT[k] == sls(s.t[k]) && s.e[k] == strain(s.t[k]) && s.deDt[k] == strainRate(s.t[k])
    ensures |s.slsTPadded| == 3 * n
    ensures forall k :: 0 <= k < 3 * n && !(n <= k < 2 * n) ==> s.slsTPadded[k] == 0.0
    ensures forall k :: n <= k < 2 * n ==> s.slsTPadded[k] == s.slsT[2 * n - 1 - k]
  {
    var t := Linspace(0.0, Stop, n);
    var length := |t|;
    var slsT := Sample(sls, t);
    var slsTPadded := PaddedFlipped(slsT);
    var e := Sample(strain, t);
    var deDt := Sample(strainRate, t);
    TruncatedConvolution(slsT, deDt, Gradient(t));
    var convolved := Multiply(Slice(Convolve(slsT, deDt), 0, length), Gradient(t)).value;
    Scene(repeat, t, length, slsT, slsTPadded, e, deDt, convolved, MultipliedScaling)
  }

  /** On the evenly spaced grid the constructor builds, every convolution
      sample is the causal sum times the one grid step h: a Riemann sum. */
  lemma ConvolvedOnEvenGrid(s: Scene, h: real)
    requires Valid(s)
    requires forall k :: 0 <= k < s.length - 1 ==> s.t[k + 1] - s.t[k] == h
    ensures s.convolved == RiemannConv(s.slsT, s.deDt, Const(s.length, h))
  {
    GradientOfEvenGrid(s.t, h);
  }

  /** The frame indices every animation of the figure is driven with:
      `np.arange(1, self.length - 1)`. */
  function Frames(s: Scene): (r: seq<int>)
    ensures forall i :: i in r <==> 1 <= i < s.length - 1
  {
    Arange(1, s.length - 1)
  }

  /** The slice of the padded kernel shown at frame i: `sls_t_padded[(2N−i):(3N−i)]`. */
  function KernelWindow(s: Scene, i: int): (w: seq<real>)
    ensures Valid(s) && 0 <= i <= s.length ==> w == Aligned(s.slsT, i)
  {
    var w := Slice(s.slsTPadded, 2 * s.length - i, 3 * s.length - i);
    if 0 <= i <= |s.slsT| then WindowIsAligned(s.slsT, i); w else w
  }

  /** Two coordinates as a point, when neither lookup raised. */
  function PointOf(x: Option<real>, y: Option<real>): (p: Option<Point>)
    ensures p.Some? <==> x.Some? && y.Some?
    ensures p.Some? ==> p.value == Point(x.value, y.value)
  {
    if x.Some? && y.Some? then Some(Point(x.value, y.value)) else None
  }

  /** The curves `setup00` draws: the strain load, the strain rate and the
      marker at the first sample. */
  datatype Panel00 = Panel00(strain: Curve, rate: Curve, marker: Option<Point>)

  function Setup00(s: Scene): (p: Panel00)
    ensures Valid(s) ==> p.strain == Curve(s.t, s.e) && p.rate == Curve(s.t, s.deDt)
    ensures Valid(s) ==> Paired(p.strain) && Paired(p.rate)
    ensures Valid(s) ==> p.marker == Some(Point(s.t[0], s.e[0]))
  {
    Panel00(Curve(s.t, s.e), Curve(s.t, s.deDt), PointOf(Index(s.t, 0), Index(s.e, 0)))
  }

  /** `animate00`: the marker that follows the strain-load curve; None when
      `self.t[i]` or `self.e[i]` raises IndexError. */
  function Animate00(s: Scene, i: int): (marker: Option<Point>)
    ensures Valid(s) ==> (marker.Some? <==> -s.length <= i < s.length)
    ensures Valid(s) && i in Frames(s) ==> marker == Some(Point(s.t[i], s.e[i]))
  {
    PointOf(Index(s.t, i), Index(s.e, i))
  }

  /** `setup10`: the relaxation kernel drawn once over the grid; it does not move. */
  function Setup10(s: Scene): (kernel: Curve)
    ensures Valid(s) ==> kernel == Curve(s.t, s.slsT) && Paired(kernel)
  {
    Curve(s.t, s.slsT)
  }

  /** The curves `setup01` draws: the strain rate, which does not move, and
      the padded-kernel window before the first frame. */
  datatype Panel01 = Panel01(rate: Curve, kernel: Curve)

  function Setup01(s: Scene): (p: Panel01)
    ensures Valid(s) ==> p.rate == Curve(s.t, s.deDt) && Paired(p.rate)
    ensures Valid(s) ==> Paired(p.kernel) && p.kernel.ys == Aligned(s.slsT, 1)
  {
    Panel01(Curve(s.t, s.deDt), Curve(s.t, KernelWindow(s, 1)))
  }

  /** `animate01`: `set_ydata` replaces the kernel curve's values and keeps
      its x values, the time grid. For every frame the window has exactly N
      samples and is the kernel reversed and slid to end at index i − 1. */
  function Animate01(s: Scene, i: int): (kernel: Curve)
    ensures kernel.xs == s.t
    ensures Valid(s) && i in Frames(s) ==>
      && Paired(kernel)
      && forall j :: 0 <= j < s.length ==>
           kernel.ys[j] == if j < i then s.slsT[i - 1 - j] else 0.0
  {
    Curve(s.t, KernelWindow(s, i))
  }

  /** The first points `setup11` draws: the convolution and the scaled product. */
  datatype Panel11Start = Panel11Start(convolved: Option<Point>, multiplied: Option<Point>)

  function Setup11(s: Scene): (p: Panel11Start)
    ensures Valid(s) ==> p.convolved == Some(Point(s.t[0], s.convolved[0]))
    ensures Valid(s) ==> p.multiplied == Some(Point(s.t[0], ProductCurve(s, 1)[0]))
  {
    var product := Multiply(s.deDt, KernelWindow(s, 1));
    assert Valid(s) ==> product == Some(Elementwise(s.deDt, Aligned(s.slsT, 1)));
    var first := if product.Some? then Index(product.value, 0) else None;
    var scaled := if first.Some? then Some(s.multipliedScaling * first.value) else None;
    Panel11Start(PointOf(Index(s.t, 0), Index(s.convolved, 0)), PointOf(Index(s.t, 0), scaled))
  }

  /** Reference definition of the product curve at frame i: the scaling
      factor times the strain rate times the kernel reversed and aligned to
      end at i − 1. */
  function ProductCurve(s: Scene, i: nat): (ys: seq<real>)
    requires Valid(s) && i <= s.length
    ensures |ys| == s.length
  {
    Scale(s.multipliedScaling, Elementwise(s.deDt, Aligned(s.slsT, i)))
  }

  /** The two curves `animate11` updates at frame i. */
  datatype Panel11 = Panel11(convolved: Curve, multiplied: Curve)

  /** `animate11`: the convolution revealed up to frame i, and the scaled
      elementwise product of the strain rate with the frame-i kernel window;
      None when `np.multiply` raises ValueError on mismatched lengths. */
  function Animate11(s: Scene, i: int): (r: Option<Panel11>)
    ensures Valid(s) && 0 <= i <= s.length ==>
      && r.Some?
      && r.value.convolved == Curve(s.t[..i], s.convolved[..i])
      && Paired(r.value.convolved) && |r.value.convolved.xs| == i
      && r.value.multiplied == Curve(s.t, ProductCurve(s, i))
      && Paired(r.value.multiplied)
  {
    var product := Multiply(s.deDt, KernelWindow(s, i));
    if product.None? then None
    else
      Some(Panel11(
        Curve(Slice(s.t, 0, i), Slice(s.convolved, 0, i)),
        Curve(s.t, Scale(s.multipliedScaling, product.value))))
  }

  /** The curves drawn before the first frame are those of frame 1. */
  lemma SetupIsFirstFrame(s: Scene)
    requires Valid(s)
    ensures Setup01(s).kernel == Animate01(s, 1)
    ensures Animate11(s, 1).Some?
    ensures Setup11(s).multiplied == Some(Point(s.t[0], Animate11(s, 1).value.multiplied.ys[0]))
    ensures Setup11(s).convolved == Some(Point(Animate11(s, 1).value.convolved.xs[0], Animate11(s, 1).value.convolved.ys[0]))
  {
  }

  /** At every frame the plotted product, summed over the grid and scaled by
      the grid spacing at i − 1, is the scaling factor times the last
      convolution sample on display: the product curve is the integrand of
      that sample. */
  lemma ProductIntegratesToConvolution(s: Scene, i: int)
    requires Valid(s) && i in Frames(s)
    ensures Sum(ProductCurve(s, i)) * Gradient(s.t)[i - 1] == s.multipliedScaling * s.convolved[i - 1]
  {
    var product := Elementwise(s.deDt, Aligned(s.slsT, i));
    SumScale(s.multipliedScaling, product);
    AlignedProductIsConvolution(s.slsT, s.deDt, i);
    ConvAtCausal(s.slsT, s.deDt, i - 1);
  }
}
