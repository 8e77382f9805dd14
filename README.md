# visco-watch: the sliding-window convolution, modelled in Dafny

visco-watch animates the stress response of a standard linear solid (SLS): a
strain-rate signal is convolved with the SLS relaxation kernel, and the
animation shows the convolution as "flip, slide, multiply, sum". Both scripts
sample the kernel on a time grid of N points, pad it with N zeros on each
side, reverse the padded array, and at frame i plot a slice of it beside the
time grid and a prefix of the precomputed convolution.

This project models that index-and-sequence logic over exact reals and
proves that it does what the scripts' comment claims ("convolution NOT
correlation"):

- `py_arrays.dfy` (module `PyArrays`): the numpy and Python operations the
  scripts use. Indexing and slicing follow Python: negative bounds count from
  the end, slice bounds are clamped, an index out of range is `None`
  (IndexError). `np.multiply` broadcasts a length-1 operand and is `None`
  (ValueError) on any other length mismatch. Also `np.pad`, `np.flipud`,
  `np.convolve(mode="full")`, `np.linspace` and `np.gradient`, with a
  reference convolution sample `ConvAt` (Σ a[k]·b[n−k] over the valid k) and
  its causal form `CausalConv` (Σ_{k=0..n}).
- `sliding_window.dfy` (module `SlidingWindow`): the padded-and-flipped
  kernel, the window each frame cuts out of it, and the lemma that
  multiplying that window with the strain rate and summing gives a
  full-convolution sample.
- `plot.dfy` (module `Plot`): the curves and points handed to `set_data`.
- `main_animation.dfy` (module `AnimatedConvolution`): main.py. The
  constructor's arrays form a `Scene` value (they are assigned once); each
  `setup*`/`animate*` callback is a function of the scene and the frame index
  returning what it hands to the plot.
- `sls_test.dfy` (module `SlsTest`): slstest.py. The module-level arrays form
  a `Script` value; `init` and `animate` (with both of its branches) are
  functions.

N is a parameter `n >= 2` instead of the constants 2000 and 6500; numpy's
`np.gradient` needs two samples. The grid ends (1000.0 and 650.0) and the
product scaling 2.0 are the source's constants. The kernel `SLS(t, 0.15, 0.5,
100.0)`, the strain load and the strain rate are closed forms in `exp`. They
are parameters of type `real -> real`, sampled on the grid.

After the reversal the kernel sits at indices [N, 2N) of the padded array,
with zeros on both sides (main.py:36-39). main.py drives frames 1 ≤ i < N−1
(main.py:76); slstest.py drives 1 ≤ i < N (slstest.py:80).

## Model

| member | source | states |
|---|---|---|
| `PyArrays.Index` | main.py:154 | `s[i]` exists exactly for −len ≤ i < len, is `s[i]` for a non-negative index and counts from the end for a negative one; otherwise IndexError |
| `PyArrays.Slice` | main.py:169 | a Python slice never has more samples than its array; with bounds inside the array it is exactly `s[lo..hi]` with hi − lo samples; an end past the array is clamped to it; a start at or after a non-negative end gives the empty slice |
| `PyArrays.Arange` | main.py:76 | `np.arange(lo, hi)` has hi − lo elements (none if hi ≤ lo), element k is lo + k, and x occurs in it exactly when lo ≤ x < hi |
| `PyArrays.Pad` | main.py:36-38 | the padded array has before + len + after samples; the input sits at offset `before`; every other sample is the fill value |
| `PyArrays.Flip` | main.py:39 | `np.flipud` keeps the length and puts sample len−1−k at position k |
| `PyArrays.Multiply` | main.py:44-46 | `np.multiply` succeeds exactly when the lengths agree or one is 1; the result has the length of the operand that is not broadcast; equal lengths give the elementwise product |
| `PyArrays.Convolve` | main.py:45 | the full convolution of lengths a and b has a + b − 1 samples, sample n being Σ a[k]·b[n−k] over the k where both are defined |
| `PyArrays.ConvAtCausal` | main.py:45 | below both lengths, a full-convolution sample n is exactly Σ_{k=0..n} a[k]·b[n−k] |
| `PyArrays.CausalConvCommutes` | main.py:45 | that causal sum is the same with the operands swapped, so the order of `sls_t` and `de_dt` does not matter |
| `PyArrays.Linspace` | main.py:31 | `np.linspace(start, stop, n)` has n samples, starts at start, and consecutive samples differ by (stop − start)/(n − 1) |
| `PyArrays.Gradient` | main.py:45 | `np.gradient(t)` has as many samples as t (t needs at least two) |
| `PyArrays.GradientOfEvenGrid` | main.py:45 | on a grid with constant step h the gradient is h at every sample, the ends included |
| `PyArrays.Sample` | main.py:34 | a closed form applied to the grid gives one value per grid point: sample k is f(t[k]) |
| `PyArrays.SumFlip` | main.py:39 | summing the samples in reverse order gives the same sum |
| `SlidingWindow.PaddedFlipped` | main.py:36-39 | the padded, flipped kernel has 3N samples, is zero outside [N, 2N), and holds kernel[2N−1−k] at k in [N, 2N) |
| `SlidingWindow.WindowIsAligned` | main.py:162 | for 0 ≤ i ≤ N the slice [(2N−i):(3N−i)] lies inside the padded kernel and has N samples; sample j is kernel[i−1−j] for j < i and 0 for j ≥ i |
| `SlidingWindow.LeadingWindow` | slstest.py:72 | for 0 ≤ i ≤ N the slice [(2N−i):2N] is the first i kernel samples, reversed |
| `SlidingWindow.TrailingWindow` | slstest.py:76 | for N ≤ i ≤ 2N the slice [N:(3N−i)] is the last 2N−i kernel samples, reversed |
| `SlidingWindow.ReversedPrefixProduct` | slstest.py:72-73 | the first i strain-rate samples times the first i kernel samples reversed, summed, is Σ_{k=0..i−1} kernel[k]·rate[i−1−k] |
| `SlidingWindow.AlignedProductIsConvolution` | main.py:173 | strain rate times the frame-i window, summed over the whole grid, is sample i−1 of the full convolution of kernel and strain rate: convolution, not correlation |
| `SlidingWindow.TruncatedConvolution` | main.py:44-46 | the full convolution of two length-N arrays has 2N−1 samples; keeping the first N and multiplying by the length-N spacing succeeds and gives sample m = (Σ_{k=0..m} kernel[k]·rate[m−k])·spacing[m] |
| `AnimatedConvolution.NewScene` | main.py:31-50 | the constructor's arrays: N-point grid from 0 to 1000, signals sampled on it, padded kernel of length 3N zero outside [N, 2N) and reversed inside, N convolution samples that are causal sums times the grid spacing, scaling 2.0 |
| `AnimatedConvolution.ConvolvedOnEvenGrid` | main.py:44-45 | on an evenly spaced grid with step h, every convolution sample is its causal sum times h (a Riemann sum) |
| `AnimatedConvolution.Frames` | main.py:76 | the animations are driven with exactly the indices 1 ≤ i < N−1 |
| `AnimatedConvolution.KernelWindow` | main.py:162 | for 0 ≤ i ≤ N the frame-i slice of the padded kernel is the kernel reversed and aligned to end at i−1 |
| `AnimatedConvolution.Setup00` | main.py:61-65 | the static curves are the grid against the strain load and the grid against the strain rate, each paired; the marker starts at (t[0], e[0]) |
| `AnimatedConvolution.Animate00` | main.py:153-155 | the marker lookup succeeds exactly for −N ≤ i < N; at every frame it is (t[i], e[i]), in bounds |
| `AnimatedConvolution.Setup10` | main.py:83-84 | the static kernel curve is the grid against the sampled relaxation kernel, one value per grid point |
| `AnimatedConvolution.Setup01` | main.py:94-101 | the static strain-rate curve pairs the grid with the strain rate; the initial kernel curve pairs all N grid points with the kernel aligned for frame 1 |
| `AnimatedConvolution.Animate01` | main.py:161-163 | at every frame the kernel curve keeps the grid as x values and gets exactly N y values: kernel[i−1−j] at j < i and 0 after |
| `AnimatedConvolution.Setup11` | main.py:118-130 | the first points are (t[0], convolved[0]) and (t[0], first sample of the frame-1 product curve); neither lookup raises |
| `AnimatedConvolution.Animate11` | main.py:168-175 | for 0 ≤ i ≤ N the multiply never raises; the convolution curve is t[0:i] against convolved[0:i], both of length i; the product curve is the grid against 2.0 × strain rate × aligned kernel |
| `AnimatedConvolution.SetupIsFirstFrame` | main.py:97-125 | the kernel curve and the product point drawn by setup01/setup11 are those frame 1 draws |
| `AnimatedConvolution.ProductIntegratesToConvolution` | main.py:168-175 | at every frame the product curve, summed and multiplied by the grid spacing at i−1, equals 2.0 × convolved[i−1], the last convolution sample shown |
| `SlsTest.Load` | slstest.py:33-45 | the module-level arrays: N-point grid from 0 to 650, padded kernel of length 3N zero outside [N, 2N) and reversed inside, N convolution samples |
| `SlsTest.Frames` | slstest.py:80 | the animation is driven with exactly the indices 1 ≤ i < N |
| `SlsTest.Init` | slstest.py:61-67 | the kernel's starting point `sls_t_padded[2N]` is in bounds and is a padding zero; the convolution starts at (t[0], convolved[0]) |
| `SlsTest.Animate` | slstest.py:69-78 | for 0 ≤ i < N the kernel curve is t[0:i] against the first i kernel samples reversed, and the convolution curve t[0:i] against convolved[0:i], all of length i; for N ≤ i ≤ 2N the kernel curve is the clamped t[(i−N):i] against the last 2N−i kernel samples reversed, both of length 2N−i, and the convolution curve is left alone |
| `SlsTest.Slide` | slstest.py:71-73 | below N, the kernel curve is t[0:i] against the first i kernel samples reversed, and the convolution curve is t[0:i] against convolved[0:i] |
| `SlsTest.KeepSliding` | slstest.py:74-76 | for N ≤ i ≤ 2N, the kernel curve is the clamped t[(i−N):i] against the last 2N−i kernel samples reversed; the convolution curve is not updated |
| `SlsTest.ElseBranchUnreachable` | slstest.py:71-80 | every frame lies below N, so every frame takes the first branch and updates both curves with i samples each |
| `SlsTest.ElseBranchReliesOnClamping` | slstest.py:74-76 | past i = N the slice t[(i−N):i] ends beyond the grid; the kernel curve has 2N−i samples, fewer than the N the bounds name |
| `SlsTest.WindowProductIsConvolution` | slstest.py:72-73 | at every frame the drawn kernel samples times the strain rate over t[0:i], summed, is the causal sum behind convolved[i−1] |

## Left out

- `sigmoid`, `sigmoid_grad` and `SLS` (main.py:12-24, slstest.py:11-26) are closed forms in `exp`. They are the parameters `sls`, `strain` and `strainRate`.
- IEEE floating point: every value is an exact `real`, so rounding in `np.convolve`, `np.gradient` and `np.linspace` is not modelled.
- PyArrays.Linspace: does not state that the last sample equals `stop` (numpy writes `stop` there; in exact reals it equals start + (n−1)·step). Proving that would need non-linear arithmetic on a variable divisor.
- PyArrays.Convolve and PyArrays.Gradient: numpy raises ValueError on an empty operand or on fewer than two samples. These are preconditions, because both scripts fix N at 2000 or 6500.
- PyArrays.Multiply: only one-dimensional broadcasting is modelled; the scripts use no other.
- Python slices with a step are not modelled; the scripts use none.
- All matplotlib and seaborn work: figures, axes, colours, legends, limits, `FuncAnimation` (interval, blit, the `repeat` flag's restart), `plt.show()` and the `main` entry point. The `repeat` flag is stored in the scene but nothing uses it.
- The mutation of line objects by `set_data`/`set_ydata`: each callback returns the data it would hand over. `init00` and `init01` (main.py:148-159) re-set the static curves of `setup00`/`setup01`, and `init11` changes nothing. They are not modelled separately.
- AnimatedConvolution.Animate11: when `np.multiply` raises, main.py has already updated the convolution curve; the model returns None for the whole frame. No frame raises.
