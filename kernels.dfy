/** The four per-pixel kernels of static/kernels.js, with gpu.js's implicit
    `this.thread.x` / `this.thread.y` made explicit coordinate parameters and
    `this.color(r, g, b, a)` made the returned sample. */
module Kernels {
  import opened Pixels
  import opened Frames

  /** grayscaleKernel: the channel average in r, g and b, alpha 1; the input sample when the filter is off. */
  function GreyscaleKernel(frame: Frame, filter: bool, x: nat, y: nat): (p: Pixel)
    requires y < |frame| && x < |frame[y]|
    ensures !filter ==> p == frame[y][x]
    ensures filter ==> p.r == p.g == p.b && p.a == 1.0
    ensures filter ==> p.r + p.g + p.b == frame[y][x].r + frame[y][x].g + frame[y][x].b
  {
    var pixel := frame[y][x];
    if filter then
      var a := (Channel(pixel, 0) + Channel(pixel, 1) + Channel(pixel, 2)) / 3.0;
      Pixel(a, a, a, 1.0)
    else
      Pixel(pixel.r, pixel.g, pixel.b, pixel.a)
  }

  /** litObjFinderKernel: white where the channel average reaches lightLevel, black below it. */
  function LitObjFinderKernel(frame: Frame, filter: bool, lightLevel: real, x: nat, y: nat): (p: Pixel)
    requires y < |frame| && x < |frame[y]|
    ensures !filter ==> p == frame[y][x]
    ensures filter ==> p == Black || p == White
    ensures filter ==> (p == White <==> Average(frame[y][x]) >= lightLevel)
  {
    var pixel := frame[y][x];
    if filter then
      var a := if Average(pixel) < lightLevel then 0.0 else 1.0;
      Pixel(a, a, a, 1.0)
    else
      Pixel(pixel.r, pixel.g, pixel.b, pixel.a)
  }

  /** colorReplaceKernel: any sample with a positive colour channel becomes (color, 1). */
  function ColorReplaceKernel(frame: Frame, filter: bool, color: seq<real>, x: nat, y: nat): (p: Pixel)
    requires y < |frame| && x < |frame[y]| && |color| == 3
    ensures p == frame[y][x] || p == Pixel(color[0], color[1], color[2], 1.0)
    ensures !filter || IsDark(frame[y][x]) ==> p == frame[y][x]
    ensures filter && !IsDark(frame[y][x]) ==> p == Pixel(color[0], color[1], color[2], 1.0)
  {
    var pixel := frame[y][x];
    if filter then
      if pixel.r > 0.0 || pixel.g > 0.0 || pixel.b > 0.0 then
        Pixel(color[0], color[1], color[2], 1.0)
      else
        Pixel(pixel.r, pixel.g, pixel.b, pixel.a)
    else
      Pixel(pixel.r, pixel.g, pixel.b, pixel.a)
  }

  /** The first n taps of one channel of the convolution, added left to right:
      `a0[i] * k[0] + a1[i] * k[1] + ...` up to `a(n-1)[i] * k[n-1]`. */
  function TapSum(nb: seq<Pixel>, k: seq<real>, i: nat, n: nat): real
    requires |nb| == 9 && |k| == 9 && i < 4 && n <= 9
  {
    if n == 0 then 0.0 else TapSum(nb, k, i, n - 1) + Channel(nb[n - 1], i) * k[n - 1]
  }

  /** One channel of the convolution: `a0[i] * k[0] + ... + a8[i] * k[8]`. */
  function WeightedSum(nb: seq<Pixel>, k: seq<real>, i: nat): real
    requires |nb| == 9 && |k| == 9 && i < 4
  {
    TapSum(nb, k, i, 9)
  }

  /** k[0] + ... + k[n-1]. */
  function PartialWeight(k: seq<real>, n: nat): real
    requires |k| == 9 && n <= 9
  {
    if n == 0 then 0.0 else PartialWeight(k, n - 1) + k[n - 1]
  }

  function WeightTotal(k: seq<real>): real
    requires |k| == 9
  {
    PartialWeight(k, 9)
  }

  /** matrixKernel: the 3 x 3 weighted sum of each colour channel on the interior, alpha 1;
      every other coordinate, and every coordinate when the filter is off, passes through. */
  function MatrixKernel(frame: Frame, filter: bool, k: seq<real>, x: nat, y: nat): (p: Pixel)
    requires Shaped(frame) && InFrame(x, y) && |k| == 9
    ensures !(filter && Interior(x, y)) ==> p == frame[y][x]
    ensures filter && Interior(x, y) ==> p.a == 1.0
    ensures filter && Interior(x, y) ==>
      forall i | 0 <= i < 3 :: Channel(p, i) == WeightedSum(Neighbours(frame, x, y), k, i)
  {
    var pixel := frame[y][x];
    if filter && Interior(x, y) then
      var nb := Neighbours(frame, x, y);
      Pixel(WeightedSum(nb, k, 0), WeightedSum(nb, k, 1), WeightedSum(nb, k, 2), 1.0)
    else
      Pixel(pixel.r, pixel.g, pixel.b, pixel.a)
  }

  /** matrixKernel as the source runs it: the local array `col` filled by a loop over the three colour channels. */
  method MatrixKernelAt(frame: Frame, filter: bool, k: seq<real>, x: nat, y: nat) returns (p: Pixel)
    requires Shaped(frame) && InFrame(x, y) && |k| == 9
    ensures p == MatrixKernel(frame, filter, k, x, y)
  {
    var pixel := frame[y][x];
    var col := new real[3](_ => 0.0);
    if filter {
      if y > 0 && y < Height - 2 && x < Width - 2 && x > 0 {
        var nb := Neighbours(frame, x, y);
        for i := 0 to 3
          invariant forall j | 0 <= j < i :: col[j] == WeightedSum(nb, k, j)
        {
          col[i] := WeightedSum(nb, k, i);
        }
        p := Pixel(col[0], col[1], col[2], 1.0);
      } else {
        p := Pixel(pixel.r, pixel.g, pixel.b, pixel.a);
      }
    } else {
      p := Pixel(pixel.r, pixel.g, pixel.b, pixel.a);
    }
  }

  /** A kernel together with the parameters it is created and called with (the filter flag aside). */
  datatype Kernel =
    | Greyscale
    | LitObjFinder(lightLevel: real)
    | ColorReplace(color: seq<real>)
    | Matrix(weights: seq<real>)

  /** The array parameters have the lengths the kernel bodies index: 3 colour channels, 9 weights. */
  predicate WellFormed(kn: Kernel) {
    match kn
    case ColorReplace(color) => |color| == 3
    case Matrix(weights) => |weights| == 9
    case _ => true
  }

  /** One output sample of a kernel at (x, y). */
  function Apply(kn: Kernel, frame: Frame, filter: bool, x: nat, y: nat): (p: Pixel)
    requires Shaped(frame) && InFrame(x, y) && WellFormed(kn)
    ensures !filter ==> p == frame[y][x]
  {
    match kn
    case Greyscale => GreyscaleKernel(frame, filter, x, y)
    case LitObjFinder(level) => LitObjFinderKernel(frame, filter, level, x, y)
    case ColorReplace(color) => ColorReplaceKernel(frame, filter, color, x, y)
    case Matrix(weights) => MatrixKernel(frame, filter, weights, x, y)
  }

  /** One kernel invocation at one coordinate, with matrixKernel run through its channel loop. */
  method KernelAt(kn: Kernel, frame: Frame, filter: bool, x: nat, y: nat) returns (p: Pixel)
    requires Shaped(frame) && InFrame(x, y) && WellFormed(kn)
    ensures p == Apply(kn, frame, filter, x, y)
  {
    match kn
    case Greyscale => p := GreyscaleKernel(frame, filter, x, y);
    case LitObjFinder(level) => p := LitObjFinderKernel(frame, filter, level, x, y);
    case ColorReplace(color) => p := ColorReplaceKernel(frame, filter, color, x, y);
    case Matrix(weights) => p := MatrixKernelAt(frame, filter, weights, x, y);
  }

  /** A weight vector whose weights sum to 1 maps a uniform frame to its own colour on the interior. */
  lemma ConvolveUniform(frame: Frame, k: seq<real>, q: Pixel, x: nat, y: nat)
    requires Shaped(frame) && Uniform(frame, q) && Interior(x, y)
    requires |k| == 9 && WeightTotal(k) == 1.0
    ensures MatrixKernel(frame, true, k, x, y) == Pixel(q.r, q.g, q.b, 1.0)
  {
    var nb := Neighbours(frame, x, y);
    assert forall j | 0 <= j < 9 :: nb[j] == q;
    forall i | 0 <= i < 3
      ensures WeightedSum(nb, k, i) == Channel(q, i)
    {
      UniformTaps(nb, k, i, 9, Channel(q, i));
    }
  }

  /** Taps over samples that agree on channel i add up to that channel times the weights' sum. */
  lemma {:induction false} UniformTaps(nb: seq<Pixel>, k: seq<real>, i: nat, n: nat, c: real)
    requires |nb| == 9 && |k| == 9 && i < 4 && n <= 9
    requires forall j | 0 <= j < 9 :: Channel(nb[j], i) == c
    ensures TapSum(nb, k, i, n) == c * PartialWeight(k, n)
  {
    if n > 0 {
      UniformTaps(nb, k, i, n - 1, c);
      assert c * PartialWeight(k, n - 1) + c * k[n - 1] == c * (PartialWeight(k, n - 1) + k[n - 1]);
    }
  }

  /** Non-negative weights summing to 1 form a convex combination: a channel stays in [0, 1]. */
  lemma WeightedSumInUnit(nb: seq<Pixel>, k: seq<real>, i: nat)
    requires |nb| == 9 && |k| == 9 && i < 4
    requires forall j | 0 <= j < 9 :: k[j] >= 0.0 && InRange(nb[j])
    requires WeightTotal(k) == 1.0
    ensures InUnit(WeightedSum(nb, k, i))
  {
    ConvexTaps(nb, k, i, 9);
  }

  /** With non-negative weights and [0, 1] samples, the first n taps lie between 0 and their total weight. */
  lemma {:induction false} ConvexTaps(nb: seq<Pixel>, k: seq<real>, i: nat, n: nat)
    requires |nb| == 9 && |k| == 9 && i < 4 && n <= 9
    requires forall j | 0 <= j < 9 :: k[j] >= 0.0 && InRange(nb[j])
    ensures 0.0 <= TapSum(nb, k, i, n) <= PartialWeight(k, n)
  {
    if n > 0 {
      ConvexTaps(nb, k, i, n - 1);
      ConvexStep(nb, k, i, n);
    }
  }

  /** Adding the n-th tap keeps the running sum between 0 and the running weight. */
  lemma ConvexStep(nb: seq<Pixel>, k: seq<real>, i: nat, n: nat)
    requires |nb| == 9 && |k| == 9 && i < 4 && 0 < n <= 9
    requires k[n - 1] >= 0.0 && InUnit(Channel(nb[n - 1], i))
    requires 0.0 <= TapSum(nb, k, i, n - 1) <= PartialWeight(k, n - 1)
    ensures 0.0 <= TapSum(nb, k, i, n) <= PartialWeight(k, n)
  {
    var tap := Channel(nb[n - 1], i) * k[n - 1];
    ScaleWithinWeight(Channel(nb[n - 1], i), k[n - 1]);
    AddWithinBounds(TapSum(nb, k, i, n - 1), tap, PartialWeight(k, n - 1), k[n - 1]);
  }

  /** Linear step, kept apart from the product so that the solver sees no multiplication. */
  lemma AddWithinBounds(s: real, t: real, bs: real, bt: real)
    requires 0.0 <= s <= bs && 0.0 <= t <= bt
    ensures 0.0 <= s + t <= bs + bt
  {
  }

  lemma ScaleWithinWeight(c: real, w: real)
    requires InUnit(c) && w >= 0.0
    ensures 0.0 <= c * w <= w
  {
    assert w - c * w == (1.0 - c) * w;
  }

  /** The parameters keep every kernel's output in [0, 1] when its input is. */
  predicate KeepsRange(kn: Kernel) {
    match kn
    case Greyscale => true
    case LitObjFinder(_) => true
    case ColorReplace(color) => |color| == 3 && InUnit(color[0]) && InUnit(color[1]) && InUnit(color[2])
    case Matrix(k) => |k| == 9 && (forall j | 0 <= j < 9 :: k[j] >= 0.0) && WeightTotal(k) == 1.0
  }

  /** Each kernel maps a frame of [0, 1] samples to a [0, 1] sample, under KeepsRange parameters. */
  lemma ApplyKeepsRange(kn: Kernel, frame: Frame, filter: bool, x: nat, y: nat)
    requires Shaped(frame) && InFrame(x, y) && WellFormed(kn) && KeepsRange(kn) && FrameInRange(frame)
    ensures InRange(Apply(kn, frame, filter, x, y))
  {
    match kn
    case Matrix(k) =>
      if filter && Interior(x, y) {
        var nb := Neighbours(frame, x, y);
        WeightedSumInUnit(nb, k, 0);
        WeightedSumInUnit(nb, k, 1);
        WeightedSumInUnit(nb, k, 2);
      }
    case _ =>
  }
}
