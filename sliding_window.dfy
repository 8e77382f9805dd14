/** The padded-and-reversed kernel both animation scripts build, and why
    sliding a window over it shows convolution rather than correlation. */
module SlidingWindow {
  import opened PyArrays

  /** The kernel zero-padded by its own length on both sides, then reversed
      as a whole (length 3N for a kernel of length N). */
  function PaddedFlipped(kernel: seq<real>): (r: seq<real>)
    ensures |r| == 3 * |kernel|
    ensures forall k :: 0 <= k < |r| && !(|kernel| <= k < 2 * |kernel|) ==> r[k] == 0.0
    ensures forall k :: |kernel| <= k < 2 * |kernel| ==> r[k] == kernel[2 * |kernel| - 1 - k]
  {
    Flip(Pad(kernel, |kernel|, |kernel|, 0.0))
  }

  /** The kernel reversed and slid so that its first sample sits at index
      i − 1 of a grid of N samples: entry j is kernel[i−1−j] for j < i and 0
      after that. */
  function Aligned(kernel: seq<real>, i: nat): (w: seq<real>)
    requires i <= |kernel|
    ensures |w| == |kernel|
  {
    seq(|kernel|, j requires 0 <= j < |kernel| => if j < i then kernel[i - 1 - j] else 0.0)
  }

  /** The window padded[(2N−i):(3N−i)] lies inside the padded kernel, has N
      samples, and is the kernel reversed and aligned to end at i − 1. */
  lemma WindowIsAligned(kernel: seq<real>, i: nat)
    requires i <= |kernel|
    ensures var n := |kernel|;
      Slice(PaddedFlipped(kernel), 2 * n - i, 3 * n - i) == Aligned(kernel, i)
  {
    var n := |kernel|;
    var padded := PaddedFlipped(kernel);
    var w := Slice(padded, 2 * n - i, 3 * n - i);
    assert w == padded[2 * n - i..3 * n - i];
    forall j | 0 <= j < n
      ensures w[j] == Aligned(kernel, i)[j]
    {
      assert w[j] == padded[2 * n - i + j];
    }
  }

  /** The window padded[(2N−i):2N] holds the first i kernel samples, reversed. */
  lemma LeadingWindow(kernel: seq<real>, i: nat)
    requires i <= |kernel|
    ensures var n := |kernel|;
      Slice(PaddedFlipped(kernel), 2 * n - i, 2 * n) == Flip(kernel[..i])
  {
    var n := |kernel|;
    var padded := PaddedFlipped(kernel);
    var w := Slice(padded, 2 * n - i, 2 * n);
    assert w == padded[2 * n - i..2 * n];
    forall j | 0 <= j < i
      ensures w[j] == Flip(kernel[..i])[j]
    {
      assert w[j] == padded[2 * n - i + j];
    }
  }

  /** For N ≤ i ≤ 2N the window padded[N:(3N−i)] holds the last 2N − i kernel
      samples, reversed: the kernel sliding out past the end of the grid. */
  lemma TrailingWindow(kernel: seq<real>, i: int)
    requires |kernel| <= i <= 2 * |kernel|
    ensures var n := |kernel|;
      Slice(PaddedFlipped(kernel), n, 3 * n - i) == Flip(kernel[i - n..])
  {
    var n := |kernel|;
    var padded := PaddedFlipped(kernel);
    var w := Slice(padded, n, 3 * n - i);
    assert w == padded[n..3 * n - i];
    forall j | 0 <= j < 2 * n - i
      ensures w[j] == Flip(kernel[i - n..])[j]
    {
      assert w[j] == padded[n + j];
    }
  }

  /** The first i signal samples times the first i kernel samples reversed,
      summed, is Σ_{k=0..i−1} kernel[k]·signal[i−1−k]. */
  lemma ReversedPrefixProduct(kernel: seq<real>, signal: seq<real>, i: nat)
    requires |signal| == |kernel|
    requires 1 <= i <= |kernel|
    ensures Sum(Elementwise(signal[..i], Flip(kernel[..i]))) == CausalConv(kernel, signal, i - 1)
  {
    var head, window := signal[..i], Flip(kernel[..i]);
    var product := Elementwise(head, window);
    var terms := CausalTerms(kernel, signal, i - 1);
    forall m | 0 <= m < i
      ensures Flip(product)[m] == terms[m]
    {
      var j := i - 1 - m;
      assert window[j] == kernel[m];
      assert product[j] == signal[j] * kernel[m];
    }
    assert Flip(product) == terms;
    SumFlip(product);
  }

  /** Multiplying a signal by the aligned kernel at frame i and summing gives
      sample i − 1 of the full convolution of kernel and signal: the window is
      the kernel flipped, so this is convolution and not correlation. */
  lemma {:induction false} AlignedProductIsConvolution(kernel: seq<real>, signal: seq<real>, i: nat)
    requires |signal| == |kernel|
    requires 1 <= i <= |kernel|
    ensures Sum(Elementwise(signal, Aligned(kernel, i))) == ConvAt(kernel, signal, i - 1)
  {
    var n := |kernel|;
    var p := Elementwise(signal, Aligned(kernel, i));
    var window := Flip(kernel[..i]);
    forall j | 0 <= j < i
      ensures p[..i][j] == Elementwise(signal[..i], window)[j]
    {
      assert window[j] == kernel[i - 1 - j];
    }
    assert p[..i] == Elementwise(signal[..i], window);
    assert p[i..] == Const(n - i, 0.0);
    assert p == p[..i] + p[i..];
    SumAppend(p[..i], p[i..]);
    SumZeros(n - i);
    ReversedPrefixProduct(kernel, signal, i);
    ConvAtCausal(kernel, signal, i - 1);
  }

  /** Reference definition of the plotted convolution: sample m is the causal
      sum Σ_{k=0..m} a[k]·b[m−k] times the grid spacing g[m] at m. */
  function RiemannConv(a: seq<real>, b: seq<real>, g: seq<real>): (r: seq<real>)
    requires |a| == |b| == |g|
    ensures |r| == |a|
  {
    seq(|a|, m requires 0 <= m < |a| => CausalConv(a, b, m) * g[m])
  }

  /** `np.multiply(np.convolve(a, b, mode="full")[0:N], g)` for operands of
      length N: the full convolution has 2N − 1 samples, the first N of them
      are kept, and multiplying them by the spacing gives RiemannConv. */
  lemma TruncatedConvolution(a: seq<real>, b: seq<real>, g: seq<real>)
    requires |a| == |b| == |g| >= 1
    ensures |Convolve(a, b)| == 2 * |a| - 1
    ensures |Slice(Convolve(a, b), 0, |a|)| == |a|
    ensures Multiply(Slice(Convolve(a, b), 0, |a|), g) == Some(RiemannConv(a, b, g))
  {
    var r := Multiply(Slice(Convolve(a, b), 0, |a|), g);
    forall m | 0 <= m < |a|
      ensures r.value[m] == RiemannConv(a, b, g)[m]
    {
      ConvAtCausal(a, b, m);
    }
    assert r.value == RiemannConv(a, b, g);
  }
}
