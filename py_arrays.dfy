/** The one-dimensional numpy and Python sequence operations the animation
    scripts are built from, over exact reals: indexing and slicing with
    Python's semantics, `np.pad`, `np.flipud`, `np.multiply` with broadcasting,
    `np.convolve` in "full" mode, `np.linspace` and `np.gradient`. */
module PyArrays {

  datatype Option<+T> = None | Some(value: T)

  /** n copies of x. */
  function Const<T>(n: nat, x: T): (r: seq<T>)
    ensures |r| == n
    ensures forall k :: 0 <= k < n ==> r[k] == x
  {
    seq(n, _ => x)
  }

  /** `s[i]`: a negative index counts from the end; an index out of range
      raises IndexError, modelled as None. */
  function Index<T>(s: seq<T>, i: int): (r: Option<T>)
    ensures r.Some? <==> -|s| <= i < |s|
    ensures 0 <= i < |s| ==> r == Some(s[i])
    ensures -|s| <= i < 0 ==> r == Some(s[|s| + i])
  {
    if 0 <= i < |s| then Some(s[i])
    else if -|s| <= i < 0 then Some(s[|s| + i])
    else None
  }

  /** How Python resolves a slice bound against a sequence of length n:
      a negative bound counts from the end, and the result is clamped to [0, n]. */
  function SliceBound(k: int, n: nat): (b: nat)
    ensures b <= n
    ensures 0 <= k <= n ==> b == k
    ensures k > n ==> b == n
    ensures k + n < 0 ==> b == 0
  {
    if k < 0 then (if k + n < 0 then 0 else k + n)
    else if k > n then n
    else k
  }

  /** `s[lo:hi]`: never raises; bounds are resolved by SliceBound and a range
      whose start is not before its end is empty. */
  function Slice<T>(s: seq<T>, lo: int, hi: int): (r: seq<T>)
    ensures |r| <= |s|
    ensures 0 <= lo <= hi <= |s| ==> r == s[lo..hi] && |r| == hi - lo
    ensures 0 <= lo <= |s| <= hi ==> r == s[lo..] && |r| == |s| - lo
    ensures 0 <= hi <= lo ==> r == []
  {
    var a, b := SliceBound(lo, |s|), SliceBound(hi, |s|);
    if a < b then s[a..b] else []
  }

  /** `np.arange(lo, hi)` on integers. */
  function Arange(lo: int, hi: int): (r: seq<int>)
    ensures |r| == if lo < hi then hi - lo else 0
    ensures forall k :: 0 <= k < |r| ==> r[k] == lo + k
    ensures forall x :: x in r <==> lo <= x < hi
    decreases hi - lo
  {
    if lo < hi then [lo] + Arange(lo + 1, hi) else []
  }

  /** `np.pad(s, (before, after), "constant", constant_values=(fill, fill))`. */
  function Pad<T>(s: seq<T>, before: nat, after: nat, fill: T): (r: seq<T>)
    ensures |r| == before + |s| + after
    ensures forall k :: 0 <= k < |r| && !(before <= k < before + |s|) ==> r[k] == fill
    ensures forall k :: before <= k < before + |s| ==> r[k] == s[k - before]
  {
    Const(before, fill) + s + Const(after, fill)
  }

  /** `np.flipud` on a one-dimensional array: the same elements, last first. */
  function Flip<T>(s: seq<T>): (r: seq<T>)
    ensures |r| == |s|
    ensures forall k :: 0 <= k < |s| ==> r[k] == s[|s| - 1 - k]
  {
    if s == [] then [] else [s[|s| - 1]] + Flip(s[..|s| - 1])
  }

  /** Elementwise product of two arrays of the same length. */
  function Elementwise(a: seq<real>, b: seq<real>): (r: seq<real>)
    requires |a| == |b|
    ensures |r| == |a|
  {
    seq(|a|, j requires 0 <= j < |a| => a[j] * b[j])
  }

  /** `c * s` for a scalar c. */
  function Scale(c: real, s: seq<real>): (r: seq<real>)
    ensures |r| == |s|
  {
    seq(|s|, j requires 0 <= j < |s| => c * s[j])
  }

  /** `np.multiply(a, b)` on one-dimensional arrays. Arrays of equal length are
      multiplied elementwise, an array of length 1 is broadcast against the
      other, and any other pair of lengths raises ValueError, modelled as None. */
  function Multiply(a: seq<real>, b: seq<real>): (r: Option<seq<real>>)
    ensures r.Some? <==> |a| == |b| || |a| == 1 || |b| == 1
    ensures r.Some? ==> |r.value| == if |a| == 1 then |b| else |a|
    ensures |a| == |b| ==> r == Some(Elementwise(a, b))
  {
    if |a| == |b| then Some(Elementwise(a, b))
    else if |a| == 1 then Some(Scale(a[0], b))
    else if |b| == 1 then Some(seq(|a|, j requires 0 <= j < |a| => a[j] * b[0]))
    else None
  }

  /** The sum of the samples (the Riemann sum without its step). */
  function Sum(s: seq<real>): real
  {
    if s == [] then 0.0 else s[0] + Sum(s[1..])
  }

  lemma {:induction false} SumAppend(s: seq<real>, t: seq<real>)
    ensures Sum(s + t) == Sum(s) + Sum(t)
  {
    if s == [] {
      assert s + t == t;
    } else {
      assert (s + t)[1..] == s[1..] + t;
      SumAppend(s[1..], t);
    }
  }

  lemma {:induction false} SumZeros(n: nat)
    ensures Sum(Const(n, 0.0)) == 0.0
  {
    if n > 0 {
      assert Const(n, 0.0)[1..] == Const(n - 1, 0.0);
      SumZeros(n - 1);
    }
  }

  /** Summing in reverse order gives the same sum. */
  lemma {:induction false} SumFlip(s: seq<real>)
    ensures Sum(Flip(s)) == Sum(s)
  {
    if s != [] {
      var init, last := s[..|s| - 1], s[|s| - 1];
      assert Flip(s)[1..] == Flip(init);
      SumFlip(init);
      assert s == init + [last];
      SumAppend(init, [last]);
    }
  }

  /** A constant factor comes out of the sum. */
  lemma {:induction false} SumScale(c: real, s: seq<real>)
    ensures Sum(Scale(c, s)) == c * Sum(s)
  {
    if s != [] {
      forall j | 0 <= j < |s| - 1
        ensures Scale(c, s)[1..][j] == Scale(c, s[1..])[j]
      {
        assert Scale(c, s)[1..][j] == c * s[j + 1];
      }
      assert Scale(c, s)[1..] == Scale(c, s[1..]);
      SumScale(c, s[1..]);
    }
  }

  /** The terms a[k]·b[n−k] of sample n of a full convolution, one for every
      index k of a; a term whose b index lies outside b is 0. */
  function ConvTerms(a: seq<real>, b: seq<real>, n: int): seq<real>
  {
    seq(|a|, k requires 0 <= k < |a| => if 0 <= n - k < |b| then a[k] * b[n - k] else 0.0)
  }

  /** Sample n of the full discrete convolution of a and b: the sum of
      a[k]·b[n−k] over every k at which both factors are defined. */
  function ConvAt(a: seq<real>, b: seq<real>, n: int): real
  {
    Sum(ConvTerms(a, b, n))
  }

  /** `np.convolve(a, b, mode="full")`. numpy raises ValueError on an empty operand. */
  function Convolve(a: seq<real>, b: seq<real>): (r: seq<real>)
    requires |a| > 0 && |b| > 0
    ensures |r| == |a| + |b| - 1
    ensures forall n :: 0 <= n < |r| ==> r[n] == ConvAt(a, b, n)
  {
    seq(|a| + |b| - 1, n requires 0 <= n < |a| + |b| - 1 => ConvAt(a, b, n))
  }

  /** The terms a[k]·b[n−k] for k = 0..n, all of them defined. */
  function CausalTerms(a: seq<real>, b: seq<real>, n: nat): (r: seq<real>)
    requires n < |a| && n < |b|
    ensures |r| == n + 1
  {
    seq(n + 1, k requires 0 <= k <= n => a[k] * b[n - k])
  }

  /** Σ_{k=0..n} a[k]·b[n−k]. */
  function CausalConv(a: seq<real>, b: seq<real>, n: nat): real
    requires n < |a| && n < |b|
  {
    Sum(CausalTerms(a, b, n))
  }

  /** Below the length of both operands, a full-convolution sample sums
      exactly the terms k = 0..n: every other term has b[n−k] undefined. */
  lemma ConvAtCausal(a: seq<real>, b: seq<real>, n: nat)
    requires n < |a| && n < |b|
    ensures ConvAt(a, b, n) == CausalConv(a, b, n)
  {
    var terms := ConvTerms(a, b, n);
    assert terms == CausalTerms(a, b, n) + Const(|a| - n - 1, 0.0);
    SumAppend(CausalTerms(a, b, n), Const(|a| - n - 1, 0.0));
    SumZeros(|a| - n - 1);
  }

  /** The causal convolution sample does not depend on the order of the operands. */
  lemma CausalConvCommutes(a: seq<real>, b: seq<real>, n: nat)
    requires n < |a| && n < |b|
    ensures CausalConv(a, b, n) == CausalConv(b, a, n)
  {
    var terms := CausalTerms(a, b, n);
    forall m | 0 <= m <= n
      ensures Flip(terms)[m] == CausalTerms(b, a, n)[m]
    {
      assert Flip(terms)[m] == terms[n - m] == a[n - m] * b[m];
    }
    assert Flip(terms) == CausalTerms(b, a, n);
    SumFlip(CausalTerms(a, b, n));
  }

  /** `np.linspace(start, stop, n)`: n samples, the first at start, evenly
      spaced by GridStep(start, stop, n). */
  function Linspace(start: real, stop: real, n: nat): (t: seq<real>)
    ensures |t| == n
    ensures n > 0 ==> t[0] == start
    ensures forall k :: 0 <= k < n - 1 ==> t[k + 1] - t[k] == GridStep(start, stop, n)
  {
    Grid(start, GridStep(start, stop, n), n)
  }

  /** n samples from start on, each step after the one before. */
  function Grid(start: real, step: real, n: nat): (t: seq<real>)
    ensures |t| == n
    ensures n > 0 ==> t[0] == start
    ensures forall k :: 0 <= k < n - 1 ==> t[k + 1] - t[k] == step
    decreases n
  {
    if n == 0 then [] else [start] + Grid(start + step, step, n - 1)
  }

  /** The spacing numpy uses for `np.linspace(start, stop, n)`. */
  function GridStep(start: real, stop: real, n: nat): real
  {
    if n > 1 then (stop - start) / ((n - 1) as real) else stop - start
  }

  /** `np.gradient(t)` with unit sample distance: one-sided differences at the
      two ends, central differences inside. numpy needs at least two samples. */
  function Gradient(t: seq<real>): (g: seq<real>)
    requires |t| >= 2
    ensures |g| == |t|
  {
    seq(|t|, k requires 0 <= k < |t| =>
      if k == 0 then t[1] - t[0]
      else if k == |t| - 1 then t[k] - t[k - 1]
      else (t[k + 1] - t[k - 1]) / 2.0)
  }

  /** On an evenly spaced grid the gradient is the grid step everywhere. */
  lemma GradientOfEvenGrid(t: seq<real>, h: real)
    requires |t| >= 2
    requires forall k :: 0 <= k < |t| - 1 ==> t[k + 1] - t[k] == h
    ensures Gradient(t) == Const(|t|, h)
  {
    forall k | 0 < k < |t| - 1
      ensures Gradient(t)[k] == h
    {
      assert t[k + 1] - t[k] == h && t[k] - t[k - 1] == h;
    }
    assert Gradient(t) == Const(|t|, h);
  }

  /** A function applied to every sample of a grid (numpy's vectorised call). */
  function Sample(f: real -> real, t: seq<real>): (r: seq<real>)
    ensures |r| == |t|
    ensures forall k :: 0 <= k < |t| ==> r[k] == f(t[k])
  {
    seq(|t|, k requires 0 <= k < |t| => f(t[k]))
  }
}
