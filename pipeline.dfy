/** The three-stage chain render runs on every frame: litObjFinderKernel at light level 0.1,
    matrixKernel with the blur weights, then colorReplaceKernel with red. Each stage's output
    frame is the next stage's input. */
module Pipeline {
  import opened Pixels
  import opened Frames
  import opened Kernels
  import opened Executor

  const LightLevel: real := 0.1
  /** The 3 x 3 blur render passes to matrixKernel. */
  const BlurWeights: seq<real> := [0.0625, 0.125, 0.0625, 0.125, 0.25, 0.125, 0.0625, 0.125, 0.0625]
  /** The replacement colour render passes to colorReplaceKernel. */
  const Highlight: seq<real> := [1.0, 0.0, 0.0]
  const Red := Pixel(1.0, 0.0, 0.0, 1.0)

  /** The frame render's three kernel calls produce from one video frame. */
  function PipelineFrame(video: Frame, filter: bool): (out: Frame)
    requires Shaped(video)
    ensures Shaped(out)
  {
    var result1 := Run(LitObjFinder(LightLevel), video, filter);
    var result2 := Run(Matrix(BlurWeights), result1, filter);
    Run(ColorReplace(Highlight), result2, filter)
  }

  /** The blur weights are positive and sum to 1. */
  lemma BlurIsNormalized()
    ensures |BlurWeights| == 9 && WeightTotal(BlurWeights) == 1.0
    ensures forall j | 0 <= j < 9 :: BlurWeights[j] > 0.0
  {
  }

  /** Light enough for the first stage to turn white. */
  predicate Lit(p: Pixel) {
    Average(p) >= LightLevel
  }

  /** Where the pipeline paints red: on the interior, some sample of the 3 x 3 neighbourhood
      is lit; elsewhere, the sample itself is lit. */
  ghost predicate Detected(video: Frame, x: nat, y: nat)
    requires Shaped(video) && InFrame(x, y)
  {
    if Interior(x, y) then exists j | 0 <= j < 9 :: Lit(Neighbours(video, x, y)[j])
    else Lit(video[y][x])
  }

  /** With the filter flag off, the whole pipeline hands the video frame through unchanged. */
  lemma PipelineOffIsIdentity(video: Frame)
    requires Shaped(video)
    ensures PipelineFrame(video, false) == video
  {
    var result1 := Run(LitObjFinder(LightLevel), video, false);
    PassThroughFrame(LitObjFinder(LightLevel), video);
    PassThroughFrame(Matrix(BlurWeights), result1);
    PassThroughFrame(ColorReplace(Highlight), result1);
  }

  /** A blur of black and white samples is the same on every colour channel, and positive
      exactly when one of the samples is white. */
  lemma BlurOfBlackAndWhite(nb: seq<Pixel>, i: nat)
    requires |nb| == 9 && i < 3
    requires forall j | 0 <= j < 9 :: nb[j] == White || nb[j] == Black
    ensures WeightedSum(nb, BlurWeights, i) == WeightedSum(nb, BlurWeights, 0)
    ensures WeightedSum(nb, BlurWeights, i) >= 0.0
    ensures WeightedSum(nb, BlurWeights, i) > 0.0 <==> exists j | 0 <= j < 9 :: nb[j] == White
  {
    BlurIsNormalized();
    BlackAndWhiteTaps(nb, BlurWeights, i, 9);
  }

  /** With positive weights, the first n taps over black and white samples agree on every colour
      channel, are non-negative, and are positive exactly when one of those n samples is white. */
  lemma {:induction false} BlackAndWhiteTaps(nb: seq<Pixel>, k: seq<real>, i: nat, n: nat)
    requires |nb| == 9 && |k| == 9 && i < 3 && n <= 9
    requires forall j | 0 <= j < 9 :: k[j] > 0.0 && (nb[j] == White || nb[j] == Black)
    ensures TapSum(nb, k, i, n) == TapSum(nb, k, 0, n)
    ensures TapSum(nb, k, i, n) >= 0.0
    ensures TapSum(nb, k, i, n) > 0.0 <==> exists j | 0 <= j < n :: nb[j] == White
  {
    if n > 0 {
      BlackAndWhiteTaps(nb, k, i, n - 1);
      TapOfBlackOrWhite(nb[n - 1], k[n - 1], i);
      TapOfBlackOrWhite(nb[n - 1], k[n - 1], 0);
    }
  }

  /** One tap of the convolution on a black or white sample: its weight, or nothing. */
  lemma TapOfBlackOrWhite(p: Pixel, w: real, i: nat)
    requires (p == White || p == Black) && i < 3
    ensures Channel(p, i) * w == if p == White then w else 0.0
  {
  }

  /** With the filter on, the final frame is red where Detected holds and black everywhere else. */
  lemma PipelineDetects(video: Frame, x: nat, y: nat)
    requires Shaped(video) && InFrame(x, y)
    ensures PipelineFrame(video, true)[y][x] == if Detected(video, x, y) then Red else Black
  {
    var result1 := Run(LitObjFinder(LightLevel), video, true);
    var result2 := Run(Matrix(BlurWeights), result1, true);
    if Interior(x, y) {
      var nb := Neighbours(result1, x, y);
      var nv := Neighbours(video, x, y);
      forall j | 0 <= j < 9
        ensures nb[j] == (if Lit(nv[j]) then White else Black)
      {
        assert nb[j] == LitObjFinderKernel(video, true, LightLevel, x - 1 + j % 3, y + 1 - j / 3);
      }
      assert (exists j | 0 <= j < 9 :: nb[j] == White) <==> (exists j | 0 <= j < 9 :: Lit(nv[j]));
      BlurOfBlackAndWhite(nb, 0);
      BlurOfBlackAndWhite(nb, 1);
      BlurOfBlackAndWhite(nb, 2);
    }
  }

  /** Blurring a uniform frame leaves its colour on the interior (with alpha 1) and everything else alone. */
  lemma UniformBlur(frame: Frame, q: Pixel, x: nat, y: nat)
    requires Shaped(frame) && Uniform(frame, q) && InFrame(x, y)
    ensures Run(Matrix(BlurWeights), frame, true)[y][x] == if Interior(x, y) then Pixel(q.r, q.g, q.b, 1.0) else q
  {
    if Interior(x, y) {
      BlurIsNormalized();
      ConvolveUniform(frame, BlurWeights, q, x, y);
    }
  }

  /** The pipeline maps a video frame of [0, 1] samples to a frame of [0, 1] samples. */
  lemma PipelineKeepsRange(video: Frame, filter: bool)
    requires Shaped(video) && FrameInRange(video)
    ensures FrameInRange(PipelineFrame(video, filter))
  {
    var result1 := Run(LitObjFinder(LightLevel), video, filter);
    var result2 := Run(Matrix(BlurWeights), result1, filter);
    BlurIsNormalized();
    RunKeepsRange(LitObjFinder(LightLevel), video, filter);
    RunKeepsRange(Matrix(BlurWeights), result1, filter);
    RunKeepsRange(ColorReplace(Highlight), result2, filter);
  }
}
