/** Running one kernel over its whole 1024 x 768 output, as gpu.js does when a kernel is called.
    Run evaluates every coordinate independently, which is what makes the accelerated backend's
    parallel dispatch safe; Dispatch is the scalar backend's row-major loop. */
module Executor {
  import opened Pixels
  import opened Frames
  import opened Kernels

  /** Row y of a kernel's output. */
  function OutputRow(kn: Kernel, frame: Frame, filter: bool, y: nat): (row: seq<Pixel>)
    requires Shaped(frame) && WellFormed(kn) && y < Height
    ensures |row| == Width
  {
    seq(Width, x requires 0 <= x < Width => Apply(kn, frame, filter, x, y))
  }

  /** The kernel's output frame: every coordinate of the output shape computed from the input alone. */
  function Run(kn: Kernel, frame: Frame, filter: bool): (out: Frame)
    requires Shaped(frame) && WellFormed(kn)
    ensures Shaped(out)
    ensures forall y, x | 0 <= y < Height && 0 <= x < Width :: out[y][x] == Apply(kn, frame, filter, x, y)
  {
    seq(Height, y requires 0 <= y < Height => OutputRow(kn, frame, filter, y))
  }

  /** The sequential executor: visits the coordinates in row-major order and builds the same frame Run describes. */
  method Dispatch(kn: Kernel, frame: Frame, filter: bool) returns (out: Frame)
    requires Shaped(frame) && WellFormed(kn)
    ensures out == Run(kn, frame, filter)
  {
    out := [];
    var y := 0;
    while y < Height
      invariant 0 <= y <= Height
      invariant |out| == y
      invariant forall j | 0 <= j < y :: out[j] == OutputRow(kn, frame, filter, j)
    {
      var row := [];
      var x := 0;
      while x < Width
        invariant 0 <= x <= Width
        invariant |row| == x
        invariant forall i | 0 <= i < x :: row[i] == Apply(kn, frame, filter, i, y)
      {
        var p := KernelAt(kn, frame, filter, x, y);
        row := row + [p];
        x := x + 1;
      }
      out := out + [row];
      y := y + 1;
    }
  }

  /** Two frames of the output shape that agree at every coordinate are equal. */
  lemma FrameEquality(a: Frame, b: Frame)
    requires Shaped(a) && Shaped(b)
    requires forall y, x | 0 <= y < Height && 0 <= x < Width :: a[y][x] == b[y][x]
    ensures a == b
  {
    forall y | 0 <= y < Height
      ensures a[y] == b[y]
    {
      assert |a[y]| == |b[y]| == Width;
    }
  }

  /** With the filter flag off, every kernel copies its input frame unchanged. */
  lemma PassThroughFrame(kn: Kernel, frame: Frame)
    requires Shaped(frame) && WellFormed(kn)
    ensures Run(kn, frame, false) == frame
  {
    FrameEquality(Run(kn, frame, false), frame);
  }

  /** A kernel whose parameters keep the range maps a [0, 1] frame to a [0, 1] frame. */
  lemma RunKeepsRange(kn: Kernel, frame: Frame, filter: bool)
    requires Shaped(frame) && WellFormed(kn) && KeepsRange(kn) && FrameInRange(frame)
    ensures FrameInRange(Run(kn, frame, filter))
  {
    var out := Run(kn, frame, filter);
    forall y, x | 0 <= y < Height && 0 <= x < Width
      ensures InRange(out[y][x])
    {
      ApplyKeepsRange(kn, frame, filter, x, y);
    }
  }

  /** Greyscaling a greyscale frame changes nothing. */
  lemma GreyscaleIdempotent(frame: Frame, filter: bool)
    requires Shaped(frame)
    ensures Run(Greyscale, Run(Greyscale, frame, filter), filter) == Run(Greyscale, frame, filter)
  {
    var once := Run(Greyscale, frame, filter);
    FrameEquality(Run(Greyscale, once, filter), once);
  }

  /** Thresholding a black-and-white frame again changes nothing, for any level in (0, 1]. */
  lemma LitObjFinderIdempotent(frame: Frame, filter: bool, lightLevel: real)
    requires Shaped(frame) && 0.0 < lightLevel <= 1.0
    ensures Run(LitObjFinder(lightLevel), Run(LitObjFinder(lightLevel), frame, filter), filter)
         == Run(LitObjFinder(lightLevel), frame, filter)
  {
    var kn := LitObjFinder(lightLevel);
    var once := Run(kn, frame, filter);
    FrameEquality(Run(kn, once, filter), once);
  }

  /** Replacing colours a second time changes nothing, whatever the replacement colour. */
  lemma ColorReplaceIdempotent(frame: Frame, filter: bool, color: seq<real>)
    requires Shaped(frame) && |color| == 3
    ensures Run(ColorReplace(color), Run(ColorReplace(color), frame, filter), filter)
         == Run(ColorReplace(color), frame, filter)
  {
    var kn := ColorReplace(color);
    var once := Run(kn, frame, filter);
    FrameEquality(Run(kn, once, filter), once);
  }
}
