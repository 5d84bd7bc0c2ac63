/** Frame buffers: the fixed 1024 x 768 grid every kernel of static/kernels.js writes
    (`output: [1024, 768]`), indexed `frame[y][x]` as the kernel bodies index it. */
module Frames {
  import opened Pixels

  const Width: nat := 1024
  const Height: nat := 768

  /** Rows first: `f[y][x]` is the sample at column x of row y. */
  type Frame = seq<seq<Pixel>>

  /** The frame has the kernels' output shape: Height rows of Width samples each. */
  ghost predicate Shaped(f: Frame) {
    |f| == Height && forall y | 0 <= y < |f| :: |f[y]| == Width
  }

  predicate InFrame(x: int, y: int) {
    0 <= x < Width && 0 <= y < Height
  }

  /** Every sample of the frame lies in [0, 1]. */
  ghost predicate FrameInRange(f: Frame)
    requires Shaped(f)
  {
    forall y, x | 0 <= y < Height && 0 <= x < Width :: InRange(f[y][x])
  }

  /** Every sample of the frame is q. */
  ghost predicate Uniform(f: Frame, q: Pixel)
    requires Shaped(f)
  {
    forall y, x | 0 <= y < Height && 0 <= x < Width :: f[y][x] == q
  }

  /** The region where matrixKernel convolves: `y > 0 && y < 768 - 2 && x < 1024 - 2 && x > 0`.
      The low margin is one pixel wide, the high margin two. */
  predicate Interior(x: int, y: int) {
    y > 0 && y < Height - 2 && x < Width - 2 && x > 0
  }

  /** The nine samples matrixKernel reads, named a0..a8 in the source: row y + 1 first,
      then row y, then row y - 1, each from column x - 1 to column x + 1. */
  function Neighbours(f: Frame, x: int, y: int): (nb: seq<Pixel>)
    requires Shaped(f) && Interior(x, y)
    ensures |nb| == 9
    ensures forall j | 0 <= j < 9 :: InFrame(x - 1 + j % 3, y + 1 - j / 3)
    ensures forall j | 0 <= j < 9 :: nb[j] == f[y + 1 - j / 3][x - 1 + j % 3]
  {
    [f[y + 1][x - 1], f[y + 1][x], f[y + 1][x + 1],
     f[y][x - 1],     f[y][x],     f[y][x + 1],
     f[y - 1][x - 1], f[y - 1][x], f[y - 1][x + 1]]
  }

  /** The 3 x 3 block centred on (x, y) lies inside the frame (its two far corners do). */
  predicate BlockInFrame(x: int, y: int) {
    InFrame(x - 1, y - 1) && InFrame(x + 1, y + 1)
  }

  /** The interior is the set of centres whose 3 x 3 block lies inside the frame, minus the
      column Width - 2 and the row Height - 2, whose reads would also be in bounds. */
  lemma InteriorIsAsymmetric()
    ensures forall x, y :: Interior(x, y) <==> BlockInFrame(x, y) && x != Width - 2 && y != Height - 2
    ensures BlockInFrame(Width - 2, Height - 2) && !Interior(Width - 2, Height - 2)
  {
  }
}
