/** The render loop of static/kernels.js: `setup`, its inner `render`, the disposer `setup` returns,
    `calcFPS` with the page's frame-rate globals, and the gpu-enabled toggle that rebuilds everything.
    The video frame, the filter checkbox and the two clock readings of each tick are parameters. */
module Render {
  import opened Frames
  import opened Kernels
  import opened Executor
  import opened Pipeline

  /** The global `fps`: undefined before the first tick, then 1 / delta (JavaScript's Infinity when delta is 0). */
  datatype Rate = Undefined | Finite(perSecond: real) | Infinite

  /** The gpu.js mode `setup` reads from the checkbox: 'gpu' or 'cpu'. */
  datatype Backend = Gpu | Cpu

  /** The page-level globals `lastCalledTime` (milliseconds), `delta` (seconds) and `fps`. */
  class FrameRate {
    var lastCalledTime: int
    /** Undefined in the source until the first tick; 0 here while fps is Undefined. */
    var delta: real
    var fps: Rate

    /** `let lastCalledTime = Date.now()` at page load. */
    constructor (now: int)
      ensures lastCalledTime == now && delta == 0.0 && fps == Undefined
    {
      lastCalledTime := now;
      delta := 0.0;
      fps := Undefined;
    }

    /** calcFPS. It reads the clock twice: `first` gives delta, `second` becomes lastCalledTime. */
    method CalcFps(first: int, second: int)
      modifies this
      ensures delta == (first - old(lastCalledTime)) as real / 1000.0
      ensures lastCalledTime == second
      ensures fps == if delta == 0.0 then Infinite else Finite(1.0 / delta)
      ensures fps == Infinite <==> first == old(lastCalledTime)
      ensures fps.Finite? ==> fps.perSecond * delta == 1.0
    {
      delta := (first - lastCalledTime) as real / 1000.0;
      lastCalledTime := second;
      fps := if delta == 0.0 then Infinite else Finite(1.0 / delta);
    }
  }

  /** One instantiation of `setup`: its backend, its closure flag `disposed`, and what it has drawn. */
  class RenderLoop {
    const backend: Backend
    const rate: FrameRate
    var disposed: bool
    /** What this loop's output canvas shows: the last frame render drew. */
    var display: Frame
    /** How many times render has called `requestAnimationFrame(render)`. */
    var requests: nat

    /** setup: pick the backend, build the kernels, then call render once. */
    constructor Setup(gpuChecked: bool, rate: FrameRate, video: Frame, filter: bool, first: int, second: int)
      requires Shaped(video)
      modifies rate
      ensures backend == (if gpuChecked then Gpu else Cpu) && this.rate == rate
      ensures !disposed && requests == 1 && display == PipelineFrame(video, filter)
      ensures rate.delta == (first - old(rate.lastCalledTime)) as real / 1000.0
      ensures rate.lastCalledTime == second
      ensures rate.fps == if rate.delta == 0.0 then Infinite else Finite(1.0 / rate.delta)
    {
      backend := if gpuChecked then Gpu else Cpu;
      this.rate := rate;
      disposed := false;
      display := [];
      requests := 0;
      new;
      Render(video, filter, first, second);
    }

    /** render: a disposed loop returns at once; otherwise the three kernels run in order, each on
        the previous one's output, the result is drawn, the next tick is requested and calcFPS runs. */
    method Render(video: Frame, filter: bool, first: int, second: int)
      requires Shaped(video)
      modifies this, rate
      ensures old(disposed) ==> unchanged(this) && unchanged(rate)
      ensures !old(disposed) ==> !disposed && display == PipelineFrame(video, filter)
      ensures !old(disposed) ==> requests == old(requests) + 1
      ensures !old(disposed) ==> rate.delta == (first - old(rate.lastCalledTime)) as real / 1000.0
      ensures !old(disposed) ==> rate.lastCalledTime == second
      ensures !old(disposed) ==> rate.fps == if rate.delta == 0.0 then Infinite else Finite(1.0 / rate.delta)
    {
      if disposed {
        return;
      }
      var result1 := Dispatch(LitObjFinder(LightLevel), video, filter);
      var result2 := Dispatch(Matrix(BlurWeights), result1, filter);
      var result3 := Dispatch(ColorReplace(Highlight), result2, filter);
      display := result3;
      requests := requests + 1;
      rate.CalcFps(first, second);
    }

    /** The closure setup returns: sets `disposed`, so every later render is a no-op. */
    method Dispose()
      modifies this
      ensures disposed && display == old(display) && requests == old(requests)
    {
      disposed := true;
    }
  }

  /** The page: the shared frame-rate globals and the loop the current `dispose` belongs to. */
  class App {
    const rate: FrameRate
    var loop: RenderLoop

    ghost predicate Valid()
      reads this, loop
    {
      loop.rate == rate
    }

    /** Page load: `lastCalledTime = Date.now()`, then `dispose = setup()`. */
    constructor Load(now: int, gpuChecked: bool, video: Frame, filter: bool, first: int, second: int)
      requires Shaped(video)
      ensures Valid() && fresh(rate) && fresh(loop)
      ensures !loop.disposed && loop.backend == (if gpuChecked then Gpu else Cpu)
      ensures loop.display == PipelineFrame(video, filter) && loop.requests == 1
      ensures rate.lastCalledTime == second
    {
      var r := new FrameRate(now);
      rate := r;
      loop := new RenderLoop.Setup(gpuChecked, r, video, filter, first, second);
    }

    /** `gpuEnabled.onchange`: dispose the running loop, then set up a fresh one on the selected backend. */
    method GpuToggled(gpuChecked: bool, video: Frame, filter: bool, first: int, second: int)
      requires Valid() && Shaped(video)
      modifies this, loop, rate
      ensures Valid() && fresh(loop)
      ensures old(loop).disposed
      ensures old(loop).display == old(loop.display) && old(loop).requests == old(loop.requests)
      ensures !loop.disposed && loop.backend == (if gpuChecked then Gpu else Cpu)
      ensures loop.display == PipelineFrame(video, filter) && loop.requests == 1
      ensures rate.lastCalledTime == second
    {
      loop.Dispose();
      loop := new RenderLoop.Setup(gpuChecked, rate, video, filter, first, second);
    }
  }
}
