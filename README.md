# Per-pixel kernel pipeline of `static/kernels.js`, in Dafny

This project models the image-transform core of a small browser demo. Each frame from the camera
goes through gpu.js kernels, and the result is drawn to a canvas. The model covers:

- **Samples and frames** (`pixels.dfy`, `frames.dfy`). A sample is an RGBA value with exact `real`
  channels. A frame is a `seq<seq<Pixel>>` indexed `[y][x]`, with the fixed output shape
  1024 x 768 that every kernel declares (`output: [1024, 768]`). The module also gives
  matrixKernel's interior region (`0 < y < 768 - 2`, `0 < x < 1024 - 2`, kept asymmetric as
  written) and its nine neighbour reads `a0..a8`, in the source's order.
- **The four kernels** (`kernels.dfy`): `grayscaleKernel`, `litObjFinderKernel`,
  `colorReplaceKernel` and `matrixKernel`. Each is a pure function of the input frame, the
  filter flag, its parameters and an explicit coordinate. gpu.js's `this.thread.x/y` becomes that
  coordinate, and `this.color(...)` becomes the returned sample. `matrixKernel` also exists as a
  method that fills the local array `col` in its loop over the three colour channels. That method
  is proved equal to the function.
- **The executor** (`executor.dfy`). `Run` is a kernel applied independently at every output
  coordinate, which is what a parallel backend computes. `Dispatch` is gpu.js's CPU mode, a
  row-major loop that builds the output grid, and it is proved to build exactly `Run`'s frame.
- **The pipeline** (`pipeline.dfy`). `render` chains threshold at 0.1, then the blur weights,
  then replacement with red. With the filter on, the final frame is proved to be red exactly where
  a lit sample lies in the 3 x 3 neighbourhood (on the interior), or at the sample itself
  (elsewhere), and black everywhere else. With the filter off, the pipeline is proved to be the
  identity.
- **The render loop** (`render.dfy`). `setup` becomes a `RenderLoop` object with the closure flag
  `disposed`. `render` is a method that does nothing once the loop is disposed. The disposer sets
  the flag. `calcFPS` updates the page-level globals `lastCalledTime`, `delta` and `fps`. The
  gpu-enabled toggle disposes the running loop and sets up a fresh one.

The video frame, the filter checkbox, the gpu checkbox and the clock readings (`Date.now()`) are
parameters of the methods that read them.

## Model

| member | source | states |
|---|---|---|
| Frames.Neighbours | static/kernels.js:82-90 | exactly nine samples; sample j is the one at row y + 1 - j / 3 and column x - 1 + j % 3, so a0..a2 are row y + 1, a3..a5 row y and a6..a8 row y - 1, each left to right; all nine coordinates lie inside the frame whenever (x, y) is interior |
| Frames.InteriorIsAsymmetric | static/kernels.js:80 | the interior is exactly the centres whose 3 x 3 block fits in the frame, minus column 1024 - 2 and row 768 - 2; at (1022, 766) the block fits but the pixel is not convolved |
| Kernels.GreyscaleKernel | static/kernels.js:19-27 | filter off: the input sample unchanged; filter on: equal r, g and b, alpha 1, and the same channel total r + g + b as the input, so each channel is the input's average |
| Kernels.LitObjFinderKernel | static/kernels.js:37-45 | filter off: the input sample unchanged; filter on: always black (0,0,0,1) or white (1,1,1,1), and white exactly when the channel average is at least lightLevel, so an average equal to lightLevel counts as lit |
| Kernels.ColorReplaceKernel | static/kernels.js:56-68 | the output is the input sample or (color[0], color[1], color[2], 1); the input is kept when the filter is off or no colour channel is positive; the colour is used when the filter is on and some channel is positive |
| Kernels.MatrixKernel | static/kernels.js:76-100 | outside the interior, or with the filter off, the input sample unchanged; on the interior with the filter on, alpha 1 and each colour channel i equal to the sum of a_j[i] * k[j] over the nine neighbours |
| Kernels.MatrixKernelAt | static/kernels.js:77-100 | the `col` loop over channels 0..2 produces the same sample as MatrixKernel at every coordinate |
| Kernels.Apply | static/kernels.js:26 | whichever kernel and parameters, with the filter off the output sample is the input sample (also lines 44, 67, 99) |
| Kernels.KernelAt | static/kernels.js:19-106 | one kernel call at one coordinate, with matrixKernel run through its channel loop, yields Apply's sample |
| Kernels.ConvolveUniform | static/kernels.js:91-94 | on a frame whose samples are all q, any weights summing to 1 give (q.r, q.g, q.b, 1) at every interior pixel |
| Kernels.WeightedSumInUnit | static/kernels.js:92 | non-negative weights summing to 1 keep a convolved channel inside [0, 1] when the nine neighbours are inside [0, 1] |
| Kernels.ApplyKeepsRange | static/kernels.js:35-36 | every kernel maps [0, 1] samples to a [0, 1] sample, given a replacement colour in [0, 1] (line 55) and convex weights |
| Executor.Run | static/kernels.js:29 | a kernel's output frame has the 1024 x 768 shape, and each sample depends only on the input frame, the parameters and its own coordinate (also lines 47, 70, 102) |
| Executor.Dispatch | static/kernels.js:16 | the sequential, row-major executor of CPU mode produces exactly the frame Run describes, so the two backends agree sample for sample |
| Executor.PassThroughFrame | static/kernels.js:99 | with the filter off, every kernel's output frame equals its input frame (also lines 26, 44, 67) |
| Executor.RunKeepsRange | static/kernels.js:36 | a kernel under range-keeping parameters maps a frame of [0, 1] samples to a frame of [0, 1] samples |
| Executor.GreyscaleIdempotent | static/kernels.js:21-27 | greyscaling an already greyscaled frame gives the same frame again |
| Executor.LitObjFinderIdempotent | static/kernels.js:38-45 | for any light level in (0, 1], thresholding a thresholded frame again changes nothing |
| Executor.ColorReplaceIdempotent | static/kernels.js:57-68 | replacing colours in an already replaced frame changes nothing, for any colour |
| Pipeline.PipelineFrame | static/kernels.js:115-117 | the final frame of the three chained kernels has the 1024 x 768 shape |
| Pipeline.BlurIsNormalized | static/kernels.js:116 | the blur weights are all positive and sum to 1 |
| Pipeline.PipelineOffIsIdentity | static/kernels.js:115-117 | with the filter off, the whole pipeline returns the video frame unchanged |
| Pipeline.BlurOfBlackAndWhite | static/kernels.js:92 | blurring black-and-white neighbours gives the same value on all three colour channels; that value is non-negative, and positive exactly when one neighbour is white |
| Pipeline.PipelineDetects | static/kernels.js:115-117 | with the filter on, the final sample is red (1,0,0,1) exactly when Detected holds (interior: some sample of the 3 x 3 neighbourhood has average at least 0.1; elsewhere: the sample itself does), and black (0,0,0,1) otherwise |
| Pipeline.UniformBlur | static/kernels.js:116 | the blur stage turns a uniform frame of colour q into (q.r, q.g, q.b, 1) on the interior and leaves q elsewhere |
| Pipeline.PipelineKeepsRange | static/kernels.js:115-117 | the pipeline maps a video frame of [0, 1] samples to a frame of [0, 1] samples, whatever the filter flag |
| Render.FrameRate.constructor | static/kernels.js:6-8 | at page load lastCalledTime is the clock reading, and fps is still undefined |
| Render.FrameRate.CalcFps | static/kernels.js:148-151 | delta is the elapsed milliseconds since lastCalledTime divided by 1000; lastCalledTime becomes the second clock reading; fps is Infinity exactly when no time elapsed, and otherwise fps times delta is 1 |
| Render.RenderLoop.Setup | static/kernels.js:14-16 | a new loop is not disposed, runs on the backend the checkbox selects, and has already rendered once (line 126): it shows the pipeline's frame and has requested one further tick |
| Render.RenderLoop.Render | static/kernels.js:111-124 | a disposed loop changes nothing at all (no kernel run, no drawing, no new tick, no rate update); a live loop shows the pipeline's frame, requests one more tick and updates the frame rate as CalcFps does |
| Render.RenderLoop.Dispose | static/kernels.js:127-131 | the loop is disposed afterwards, and its drawn frame and tick count are untouched |
| Render.App.Load | static/kernels.js:6-9 | the page starts with one live loop sharing the page's frame-rate globals |
| Render.App.GpuToggled | static/kernels.js:10-13 | the previous loop is disposed and keeps what it drew; a fresh, live loop on the newly selected backend replaces it and has rendered once |

## Left out

- DOM work: the element lookups, appending and removing the canvas, and writing the rate with
  `innerHTML` (lines 2-5, 108, 128, 152). The canvas is modelled only as the `display` frame.
- gpu.js itself: `new GPU({mode})`, the `graphical`, `tactic` and `pipeline` options and
  `gpu.destroy()` (lines 16, 28-33, 129). The selected backend is recorded and has no effect on
  results. This matches `Run` and `Dispatch` being equal.
- Parallel dispatch on the GPU. It is represented only by `Run`, whose samples are independent
  of one another.
- `requestAnimationFrame` scheduling (line 122). It is modelled as a count of requested ticks.
  Who calls `render` next is left to the caller.
- The camera stream handler and the `DOMContentLoaded` wiring (lines 134-146). This is I/O, and it
  refers to names the file does not define.
- `fps.toFixed(0)` and the display of the rate. `fps` and `delta` are exact reals, not doubles.
- IEEE-754 float rounding of channel values. Channels are exact reals. The uniform-blur results
  hold only in exact arithmetic.
- The commented-out alternative pipelines (lines 118-121). `grayscaleKernel` is modelled even
  though `render` does not call it.
- The video element's own resolution. Every kernel reads the input at coordinates of its
  1024 x 768 output, so the model requires an input frame of that shape. The source does not
  check this. The code raises no errors of its own: a frame of another size, a missing GPU or a
  frame that is not ready yet are not handled, so the model has no error paths.
- Removing the canvas a second time would throw in the source. The model's `Dispose` can be
  called repeatedly only because the DOM is left out.
