/** The module-level arrays of slstest.py and what its `init` and `animate`
    callbacks hand to the plot: the kernel drawn only over the part of the
    grid it has slid onto, next to the convolution revealed so far. */
module SlsTest {
  import opened PyArrays
  import opened SlidingWindow
  import opened Plot

  /** The time grid is `np.linspace(0.0, Stop, n)`; the source uses n = 6500. */
  const Stop: real := 650.0

  /** The module-level arrays the animation reads. */
  datatype Script = Script(
    t: seq<real>,
    length: int,
    slsT: seq<real>,
    slsTPadded: seq<real>,
    deDt: seq<real>,
    convolved: seq<real>)

  /** How the arrays are related once computed. */
  ghost predicate Valid(s: Script)
  {
    && s.length == |s.t| >= 2
    && |s.slsT| == |s.deDt| == s.length
    && s.slsTPadded == PaddedFlipped(s.slsT)
    && s.convolved == RiemannConv(s.slsT, s.deDt, Gradient(s.t))
  }

  /** The "data get" block: the grid, the sampled relaxation kernel
      `SLS(t, 0.15, 0.5, 100.0)` (given as sls), its padded-and-flipped copy,
      the strain rate (given as strainRate) and the scaled truncated
      convolution. */
  function Load(n: nat, sls: real -> real, strainRate: real -> real): (s: Script)
    requires n >= 2
    ensures Valid(s)
    ensures s.length == n && s.t == Linspace(0.0, Stop, n)
    ensures forall k :: 0 <= k < n ==> s.slsT[k] == sls(s.t[k]) && s.deDt[k] == strainRate(s.t[k])
    ensures |s.slsTPadded| == 3 * n
    ensures forall k :: 0 <= k < 3 * n && !(n <= k < 2 * n) ==> s.slsTPadded[k] == 0.0
    ensures forall k :: n <= k < 2 * n ==> s.slsTPadded[k] == s.slsT[2 * n - 1 - k]
    ensures |s.convolved| == n
  {
    var t := Linspace(0.0, Stop, n);
    var length := |t|;
    var slsT := Sample(sls, t);
    var slsTPadded := PaddedFlipped(slsT);
    var deDt := Sample(strainRate, t);
    TruncatedConvolution(slsT, deDt, Gradient(t));
    var convolved := Multiply(Slice(Convolve(slsT, deDt), 0, |t|), Gradient(t)).value;
    Script(t, length, slsT, slsTPadded, deDt, convolved)
  }

  /** The frames the animation is driven with: `np.arange(1, length)`. */
  function Frames(s: Script): (r: seq<int>)
    ensures forall i :: i in r <==> 1 <= i < s.length
  {
    Arange(1, s.length)
  }

  /** What `init` sets: the strain-rate curve, and single points for the
      kernel and the convolution. */
  datatype InitLines = InitLines(rate: Curve, kernel: Option<Point>, convolved: Option<Point>)

  /** `init`. The kernel's starting point `sls_t_padded[2*length]` is in bounds
      and is one of the padding zeros. */
  function Init(s: Script): (r: InitLines)
    ensures Valid(s) ==>
      && r.rate == Curve(s.t, s.deDt) && Paired(r.rate)
      && r.kernel == Some(Point(s.t[0], 0.0))
      && r.convolved == Some(Point(s.t[0], s.convolved[0]))
  {
    var first := Index(s.t, 0);
    var kernelStart := Index(s.slsTPadded, 2 * s.length);
    var convolvedStart := Index(s.convolved, 0);
    InitLines(
      Curve(s.t, s.deDt),
      if first.Some? && kernelStart.Some? then Some(Point(first.value, kernelStart.value)) else None,
      if first.Some? && convolvedStart.Some? then Some(Point(first.value, convolvedStart.value)) else None)
  }

  /** What `animate` sets at frame i: the kernel curve always, the
      convolution curve only in the first branch (None: left as it was). */
  datatype FrameLines = FrameLines(kernel: Curve, convolved: Option<Curve>)

  /** `animate`: the branch taken below length, and the "keep sliding"
      branch from there on. */
  function Animate(s: Script, i: int): (r: FrameLines)
    ensures Valid(s) && 0 <= i < s.length ==>
      && r.kernel == Curve(s.t[..i], Flip(s.slsT[..i]))
      && Paired(r.kernel) && |r.kernel.xs| == i
      && r.convolved == Some(Curve(s.t[..i], s.convolved[..i]))
      && Paired(r.convolved.value)
    ensures Valid(s) && s.length <= i <= 2 * s.length ==>
      && r.kernel == Curve(s.t[i - s.length..], Flip(s.slsT[i - s.length..]))
      && Paired(r.kernel) && |r.kernel.xs| == 2 * s.length - i
      && r.convolved == None
  {
    if i < s.length then Slide(s, i) else KeepSliding(s, i)
  }

  /** The first branch: the kernel's first i samples reversed, drawn over
      `t[0:i]`, beside the convolution so far. */
  function Slide(s: Script, i: int): (r: FrameLines)
    ensures Valid(s) && 0 <= i < s.length ==>
      && r.kernel == Curve(s.t[..i], Flip(s.slsT[..i]))
      && r.convolved == Some(Curve(s.t[..i], s.convolved[..i]))
  {
    var n := s.length;
    var lines := FrameLines(
      Curve(Slice(s.t, 0, i), Slice(s.slsTPadded, 2 * n - i, 2 * n)),
      Some(Curve(Slice(s.t, 0, i), Slice(s.convolved, 0, i))));
    if 0 <= i <= |s.slsT| then LeadingWindow(s.slsT, i); lines else lines
  }

  /** The "keep sliding" branch: the kernel's last 2·length − i samples
      reversed, drawn over `t[(i−length):i]`, whose end Python clamps to the
      grid; the convolution curve is left as it was. */
  function KeepSliding(s: Script, i: int): (r: FrameLines)
    ensures Valid(s) && s.length <= i <= 2 * s.length ==>
      && r.kernel == Curve(s.t[i - s.length..], Flip(s.slsT[i - s.length..]))
      && r.convolved == None
  {
    var n := s.length;
    var lines := FrameLines(Curve(Slice(s.t, i - n, i), Slice(s.slsTPadded, n, 3 * n - i)), None);
    if |s.slsT| <= i <= 2 * |s.slsT| then TrailingWindow(s.slsT, i); lines else lines
  }

  /** Every frame lies below length, so the "keep sliding" branch is never
      taken and every frame updates the convolution curve. */
  lemma ElseBranchUnreachable(s: Script, i: int)
    requires Valid(s) && i in Frames(s)
    ensures Animate(s, i).convolved.Some?
    ensures |Animate(s, i).kernel.ys| == |Animate(s, i).convolved.value.xs| == i
  {
  }

  /** In the "keep sliding" branch past i = length, `t[(i−length):i]` names
      length indices but only 2·length − i exist: the curve is paired only
      because Python clamps the end of the slice to the grid. */
  lemma ElseBranchReliesOnClamping(s: Script, i: int)
    requires Valid(s) && s.length < i <= 2 * s.length
    ensures i > |s.t|
    ensures |Animate(s, i).kernel.xs| == 2 * s.length - i < i - (i - s.length)
  {
  }

  /** At frame i the drawn kernel samples, multiplied by the strain rate over
      `t[0:i]` and summed, give the causal sum that, times the grid spacing,
      is the last drawn point `convolved[i−1]` of the convolution curve
      (see Valid and RiemannConv). */
  lemma {:induction false} WindowProductIsConvolution(s: Script, i: int)
    requires Valid(s) && i in Frames(s)
    ensures var ys := Animate(s, i).kernel.ys;
      |ys| == i && Sum(Elementwise(s.deDt[..i], ys)) == CausalConv(s.slsT, s.deDt, i - 1)
  {
    assert Animate(s, i).kernel.ys == Flip(s.slsT[..i]);
    ReversedPrefixProduct(s.slsT, s.deDt, i);
  }
}
