/** Samples: one RGBA value as the kernels of static/kernels.js read and write it.
    Channels are exact reals; the GPU's 32-bit float rounding is not modelled. */
module Pixels {

  /** One RGBA sample. `pixel[0..3]` and `pixel.r/g/b/a` in a kernel body name the same channels. */
  datatype Pixel = Pixel(r: real, g: real, b: real, a: real)

  /** `pixel[i]` in a kernel body: 0 is red, 1 green, 2 blue, 3 alpha. */
  function Channel(p: Pixel, i: nat): real
    requires i < 4
  {
    if i == 0 then p.r else if i == 1 then p.g else if i == 2 then p.b else p.a
  }

  /** The channel average both greyscale and lit-object kernels compute: (pixel[0] + pixel[1] + pixel[2]) / 3. */
  function Average(p: Pixel): real {
    (Channel(p, 0) + Channel(p, 1) + Channel(p, 2)) / 3.0
  }

  /** What `this.color(0, 0, 0, 1)` and `this.color(1, 1, 1, 1)` write. */
  const Black := Pixel(0.0, 0.0, 0.0, 1.0)
  const White := Pixel(1.0, 1.0, 1.0, 1.0)

  /** No colour channel is strictly positive: the colour-replace kernel leaves such a pixel alone. */
  predicate IsDark(p: Pixel) {
    p.r <= 0.0 && p.g <= 0.0 && p.b <= 0.0
  }

  predicate InUnit(c: real) {
    0.0 <= c <= 1.0
  }

  /** Every channel lies in the normalised range [0, 1] that the kernels' parameters assume. */
  predicate InRange(p: Pixel) {
    InUnit(p.r) && InUnit(p.g) && InUnit(p.b) && InUnit(p.a)
  }
}
