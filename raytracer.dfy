/** The CPU side of the progressive ray tracer (src/core/raytracer/mod.rs):
    the sample-accumulation state machine, render-parameter validation, the
    scene encoder and the bookkeeping of `Raytracer` around its GPU calls.
    GPU objects are not modelled; the uniform buffers the CPU writes each
    frame are modelled by the values last written to them. */
module Raytracer {
  import opened Scalar
  import opened Wrappers
  import opened Texture
  import opened Material
  import Sphere

  // ---------------------------------------------------------------------------
  // Sampling parameters and the accumulation state machine

  datatype SamplingParams = SamplingParams(maxSamplesPerPixel: u32, numSamplesPerPixel: u32, numBounces: u32)

  /** `SamplingParams::default()`. */
  function DefaultSamplingParams(): (s: SamplingParams)
    ensures s.numSamplesPerPixel != 0 && s.maxSamplesPerPixel % s.numSamplesPerPixel == 0
  {
    SamplingParams(256, 1, 8)
  }

  /** The per-frame record the GPU kernel reads. */
  datatype GpuSamplingParams = GpuSamplingParams(
    numSamplesPerPixel: u32,
    numBounces: u32,
    accumulatedSamplesPerPixel: u32,
    clearAccumulatedSamples: u32)

  /** What one call of `next_frame` returns, and the accumulated count it leaves behind. */
  datatype FrameStep = FrameStep(gpu: GpuSamplingParams, accumulated: u32)

  /** `RenderProgress::next_frame` from accumulated count `acc`: the first frame after a
      reset clears and takes `num` samples without looking at `max`; later frames add
      `num` while the total stays within `max`; after that every frame takes zero
      samples and leaves the count alone. The sum `num + acc` is compared in full
      precision (see `ProgressStepWrapping` for the source's 32-bit sum). */
  function ProgressStep(acc: u32, s: SamplingParams): (r: FrameStep)
    ensures r.gpu.numSamplesPerPixel == s.numSamplesPerPixel || r.gpu.numSamplesPerPixel == 0
    ensures r.accumulated as int == acc as int + r.gpu.numSamplesPerPixel as int
  {
    var next := s.numSamplesPerPixel as int + acc as int;
    if acc == 0 then
      FrameStep(GpuSamplingParams(s.numSamplesPerPixel, s.numBounces, s.numSamplesPerPixel, 1), s.numSamplesPerPixel)
    else if next <= s.maxSamplesPerPixel as int then
      FrameStep(GpuSamplingParams(s.numSamplesPerPixel, s.numBounces, next as u32, 0), next as u32)
    else
      FrameStep(GpuSamplingParams(0, s.numBounces, acc, 0), acc)
  }

  /** `next_frame` exactly as written: `num + acc` is a `u32` addition, which wraps
      around in a release build. The count still moves by the samples taken, but modulo
      2^32, and the two steps agree whenever the sum does not overflow. */
  function ProgressStepWrapping(acc: u32, s: SamplingParams): (r: FrameStep)
    ensures r.accumulated as int == (acc as int + r.gpu.numSamplesPerPixel as int) % U32_LIMIT
    ensures s.numSamplesPerPixel as int + acc as int < U32_LIMIT ==> r == ProgressStep(acc, s)
  {
    var next := WrapU32(s.numSamplesPerPixel as nat + acc as nat);
    if acc == 0 then
      FrameStep(GpuSamplingParams(s.numSamplesPerPixel, s.numBounces, next, 1), next)
    else if next <= s.maxSamplesPerPixel then
      FrameStep(GpuSamplingParams(s.numSamplesPerPixel, s.numBounces, next, 0), next)
    else
      FrameStep(GpuSamplingParams(0, s.numBounces, acc, 0), acc)
  }

  /** Counterexample: with `max = num = 2^31` (which `validate` accepts), the second frame's
      32-bit sum wraps to 0, so the as-written step keeps sampling past the budget and
      drops the count to 0 (so the third frame clears the image again), where the
      full-precision step halts at `max`. */
  lemma ProgressStepWrappingOverflows()
    ensures var s := SamplingParams(0x8000_0000, 0x8000_0000, 8);
      var first := ProgressStepWrapping(0, s);
      var second := ProgressStepWrapping(first.accumulated, s);
      first.accumulated == 0x8000_0000 &&
      second.gpu.numSamplesPerPixel == 0x8000_0000 && second.accumulated == 0 &&
      ProgressStepWrapping(second.accumulated, s).gpu.clearAccumulatedSamples == 1 &&
      ProgressStep(first.accumulated, s).gpu.numSamplesPerPixel == 0 &&
      ProgressStep(first.accumulated, s).accumulated == 0x8000_0000
  {
    var s := SamplingParams(0x8000_0000, 0x8000_0000, 8);
    assert WrapU32(0x8000_0000 + 0x8000_0000) == 0;
  }

  /** A clear is requested exactly on the first frame after a reset, and the bounce
      count is passed through on every frame. */
  lemma {:induction false} ClearOnlyAfterReset(acc: u32, s: SamplingParams)
    ensures ProgressStep(acc, s).gpu.clearAccumulatedSamples == 1 <==> acc == 0
    ensures ProgressStep(acc, s).gpu.clearAccumulatedSamples == 0 <==> acc != 0
    ensures ProgressStep(acc, s).gpu.numBounces == s.numBounces
    ensures ProgressStep(acc, s).gpu.accumulatedSamplesPerPixel == ProgressStep(acc, s).accumulated
  {
  }

  /** A sampling budget the validator accepts: a non-zero step that divides the maximum. */
  predicate ValidSampling(s: SamplingParams)
  {
    s.numSamplesPerPixel != 0 && s.maxSamplesPerPixel % s.numSamplesPerPixel == 0
  }

  /** The invariant of the accumulated count under a valid budget: a multiple of the step,
      never above the maximum, except that a zero maximum lets the first frame store one step. */
  predicate AccumulationInvariant(acc: u32, s: SamplingParams)
    requires ValidSampling(s)
  {
    acc % s.numSamplesPerPixel == 0 &&
    (acc <= s.maxSamplesPerPixel || acc == s.numSamplesPerPixel)
  }

  /** A reset count satisfies the invariant. */
  lemma {:induction false} ResetKeepsInvariant(s: SamplingParams)
    requires ValidSampling(s)
    ensures AccumulationInvariant(0, s)
  {
    assert 0 as u32 % s.numSamplesPerPixel == 0;
  }

  /** `next_frame` keeps the invariant; it either takes `num` samples and adds them to the
      count, or takes none and leaves the count unchanged, and it takes none only once
      another step would pass the maximum. */
  lemma {:induction false} ProgressStepKeepsInvariant(acc: u32, s: SamplingParams)
    requires ValidSampling(s) && AccumulationInvariant(acc, s)
    ensures AccumulationInvariant(ProgressStep(acc, s).accumulated, s)
    ensures var r := ProgressStep(acc, s);
      (r.gpu.numSamplesPerPixel == s.numSamplesPerPixel && r.accumulated as int == acc as int + s.numSamplesPerPixel as int) ||
      (r.gpu.numSamplesPerPixel == 0 && r.accumulated == acc && acc != 0 &&
       acc as int + s.numSamplesPerPixel as int > s.maxSamplesPerPixel as int)
  {
    var num := s.numSamplesPerPixel as int;
    var r := ProgressStep(acc, s);
    if acc == 0 {
      assert r.accumulated == s.numSamplesPerPixel;
      ModAddStep(0, num);
    } else if num + acc as int <= s.maxSamplesPerPixel as int {
      assert r.accumulated as int == num + acc as int;
      ModAddStep(acc as int, num);
    } else {
      assert r.accumulated == acc;
    }
  }

  lemma ModAddStep(a: int, n: int)
    requires n > 0 && a % n == 0
    ensures (n + a) % n == 0
  {
    var q := a / n;
    assert a == n * q;
    var x := n + a;
    assert x == n * (q + 1);
    assert x == n * (x / n) + x % n;
    assert n * (q + 1 - x / n) == x % n;
    SmallMultipleIsZero(n, q + 1 - x / n);
  }

  /** With a non-zero budget the count never exceeds the maximum. */
  lemma {:induction false} InvariantBoundsByMax(acc: u32, s: SamplingParams)
    requires ValidSampling(s) && s.maxSamplesPerPixel != 0 && AccumulationInvariant(acc, s)
    ensures acc <= s.maxSamplesPerPixel
  {
    var num := s.numSamplesPerPixel as int;
    var max := s.maxSamplesPerPixel as int;
    DivisorBelow(max, num);
  }

  lemma DivisorBelow(m: int, n: int)
    requires m > 0 && n > 0 && m % n == 0
    ensures n <= m
  {
    var q := m / n;
    assert m == n * q;
    assert q >= 1;
  }

  /** A zero maximum passes the sampling check, and the first frame then stores a count above it. */
  lemma ZeroMaximumOvershoots(num: u32)
    requires num != 0
    ensures ValidSampling(SamplingParams(0, num, 8))
    ensures ProgressStep(0, SamplingParams(0, num, 8)).accumulated > 0
  {
  }

  /** The accumulated count after `k` frames starting from `acc`. */
  function AccumulatedAfter(acc: u32, s: SamplingParams, k: nat): u32
    decreases k
  {
    if k == 0 then acc else AccumulatedAfter(ProgressStep(acc, s).accumulated, s, k - 1)
  }

  /** From a reset, frame `k` (counting from 1) brings the count to `k * num` until it
      reaches `max`, after `max / num` frames, and then it stays at `max`. */
  lemma {:induction false} AccumulatedAfterFrames(s: SamplingParams, k: nat)
    requires ValidSampling(s) && s.maxSamplesPerPixel != 0 && k >= 1
    ensures var frames := s.maxSamplesPerPixel as int / s.numSamplesPerPixel as int;
      AccumulatedAfter(0, s, k) as int == (if k <= frames then k else frames) * s.numSamplesPerPixel as int
  {
    var num := s.numSamplesPerPixel as int;
    var max := s.maxSamplesPerPixel as int;
    var frames := max / num;
    assert frames >= 1 && frames * num == max by {
      DivisorBelow(max, num);
      assert max == num * (max / num);
    }
    assert ProgressStep(0, s).accumulated as int == num;
    FramesFrom(s, 1, k - 1);
  }

  /** Helper for `AccumulatedAfterFrames`: from `j * num` (with `1 <= j <= max / num`),
      `k` more frames give `min(j + k, max / num) * num`. */
  lemma {:induction false} FramesFrom(s: SamplingParams, j: nat, k: nat)
    requires ValidSampling(s) && s.maxSamplesPerPixel != 0
    requires 1 <= j <= s.maxSamplesPerPixel as int / s.numSamplesPerPixel as int
    requires s.maxSamplesPerPixel as int / s.numSamplesPerPixel as int * s.numSamplesPerPixel as int == s.maxSamplesPerPixel as int
    ensures var frames := s.maxSamplesPerPixel as int / s.numSamplesPerPixel as int;
      0 <= j * s.numSamplesPerPixel as int < U32_LIMIT &&
      AccumulatedAfter((j * s.numSamplesPerPixel as int) as u32, s, k) as int ==
        (if j + k <= frames then j + k else frames) * s.numSamplesPerPixel as int
    decreases k
  {
    var num := s.numSamplesPerPixel as int;
    var max := s.maxSamplesPerPixel as int;
    var frames := max / num;
    assert j * num <= frames * num by { MulLe(j, frames, num); }
    var acc := (j * num) as u32;
    if k > 0 {
      var step := ProgressStep(acc, s);
      if j < frames {
        assert (j + 1) * num <= max by { MulLe(j + 1, frames, num); }
        assert step.accumulated as int == (j + 1) * num;
        FramesFrom(s, j + 1, k - 1);
      } else {
        assert step.accumulated == acc;
        FramesAtMax(s, acc, k - 1);
      }
    }
  }

  /** Once the count is at a non-zero maximum it stays there. */
  lemma {:induction false} FramesAtMax(s: SamplingParams, acc: u32, k: nat)
    requires ValidSampling(s) && acc == s.maxSamplesPerPixel && acc != 0
    ensures AccumulatedAfter(acc, s, k) == acc
    decreases k
  {
    if k > 0 { FramesAtMax(s, acc, k - 1); }
  }

  /** At a non-zero maximum the renderer halts: zero samples, count unchanged, no clear. */
  lemma {:induction false} CompletedRenderHalts(s: SamplingParams)
    requires ValidSampling(s) && s.maxSamplesPerPixel != 0
    ensures var r := ProgressStep(s.maxSamplesPerPixel, s);
      r.gpu.numSamplesPerPixel == 0 && r.accumulated == s.maxSamplesPerPixel &&
      r.gpu.accumulatedSamplesPerPixel == s.maxSamplesPerPixel && r.gpu.clearAccumulatedSamples == 0
  {
  }

  /** `RenderProgress`: the accumulated samples per pixel. */
  class RenderProgress {
    var accumulatedSamplesPerPixel: u32

    /** `RenderProgress::new`. */
    constructor ()
      ensures accumulatedSamplesPerPixel == 0
    {
      accumulatedSamplesPerPixel := 0;
    }

    /** `RenderProgress::next_frame`. */
    method NextFrame(s: SamplingParams) returns (g: GpuSamplingParams)
      modifies this
      ensures g == ProgressStep(old(accumulatedSamplesPerPixel), s).gpu
      ensures accumulatedSamplesPerPixel == ProgressStep(old(accumulatedSamplesPerPixel), s).accumulated
    {
      var current := accumulatedSamplesPerPixel;
      var next := s.numSamplesPerPixel as int + current as int;
      if current == 0 {
        accumulatedSamplesPerPixel := s.numSamplesPerPixel;
        g := GpuSamplingParams(s.numSamplesPerPixel, s.numBounces, s.numSamplesPerPixel, 1);
      } else if next <= s.maxSamplesPerPixel as int {
        accumulatedSamplesPerPixel := next as u32;
        g := GpuSamplingParams(s.numSamplesPerPixel, s.numBounces, next as u32, 0);
      } else {
        g := GpuSamplingParams(0, s.numBounces, current, 0);
      }
    }

    /** `RenderProgress::reset`. */
    method Reset()
      modifies this
      ensures accumulatedSamplesPerPixel == 0
    {
      accumulatedSamplesPerPixel := 0;
    }

    /** `RenderProgress::accumulated_samples`. */
    function AccumulatedSamples(): (n: u32)
      reads this
      ensures n == accumulatedSamplesPerPixel
    {
      accumulatedSamplesPerPixel
    }
  }

  // ---------------------------------------------------------------------------
  // Render parameters and their validation

  /** Depth-of-field parameters of the ray-casting camera; `vfov` is in degrees. */
  datatype RaycastCameraParams = RaycastCameraParams(vfov: F32, aperture: F32, focusDistance: F32)

  datatype Camera = Camera(fov: F32, aspect: F32, near: F32, far: F32, rccp: Option<RaycastCameraParams>)

  datatype SkyParams = SkyParams(azimuthDegrees: F32, zenithDegrees: F32, turbidity: F32, albedo: (F32, F32, F32))

  datatype RenderParams = RenderParams(camera: Camera, sky: SkyParams, sampling: SamplingParams, viewportSize: (u32, u32))

  /** The derived `PartialEq` of the depth-of-field parameters: fieldwise `f32` equality. */
  predicate RaycastCameraParamsEq(a: RaycastCameraParams, b: RaycastCameraParams)
  {
    F32Eq(a.vfov, b.vfov) && F32Eq(a.aperture, b.aperture) && F32Eq(a.focusDistance, b.focusDistance)
  }

  /** The derived `PartialEq` of the camera; two absent depth-of-field records are equal. */
  predicate CameraEq(a: Camera, b: Camera)
  {
    F32Eq(a.fov, b.fov) && F32Eq(a.aspect, b.aspect) && F32Eq(a.near, b.near) && F32Eq(a.far, b.far) &&
    (match (a.rccp, b.rccp)
     case (None, None) => true
     case (Some(x), Some(y)) => RaycastCameraParamsEq(x, y)
     case _ => false)
  }

  /** The derived `PartialEq` of `SkyParams` (src/core/raytracer/sky.rs). */
  predicate SkyParamsEq(a: SkyParams, b: SkyParams)
  {
    F32Eq(a.azimuthDegrees, b.azimuthDegrees) && F32Eq(a.zenithDegrees, b.zenithDegrees) &&
    F32Eq(a.turbidity, b.turbidity) &&
    F32Eq(a.albedo.0, b.albedo.0) && F32Eq(a.albedo.1, b.albedo.1) && F32Eq(a.albedo.2, b.albedo.2)
  }

  /** The derived `PartialEq` of `RenderParams`, as `set_render_params` compares them. */
  predicate RenderParamsEq(a: RenderParams, b: RenderParams)
  {
    CameraEq(a.camera, b.camera) && SkyParamsEq(a.sky, b.sky) &&
    a.sampling == b.sampling && a.viewportSize == b.viewportSize
  }

  /** Some float of the parameters is NaN. */
  predicate HasNaN(p: RenderParams)
  {
    p.camera.fov.NaN? || p.camera.aspect.NaN? || p.camera.near.NaN? || p.camera.far.NaN? ||
    (p.camera.rccp.Some? &&
     (p.camera.rccp.value.vfov.NaN? || p.camera.rccp.value.aperture.NaN? || p.camera.rccp.value.focusDistance.NaN?)) ||
    p.sky.azimuthDegrees.NaN? || p.sky.zenithDegrees.NaN? || p.sky.turbidity.NaN? ||
    p.sky.albedo.0.NaN? || p.sky.albedo.1.NaN? || p.sky.albedo.2.NaN?
  }

  /** Parameter equality is structural equality for parameters without a NaN; parameters
      holding a NaN equal nothing, not even themselves. */
  lemma {:induction false} RenderParamsEqIsEqualityWithoutNaN(a: RenderParams, b: RenderParams)
    ensures RenderParamsEq(a, b) <==> a == b && !HasNaN(a)
  {
    F32EqIsEqualityOffNaN(a.camera.fov, b.camera.fov);
    F32EqIsEqualityOffNaN(a.camera.aspect, b.camera.aspect);
    F32EqIsEqualityOffNaN(a.camera.near, b.camera.near);
    F32EqIsEqualityOffNaN(a.camera.far, b.camera.far);
    if a.camera.rccp.Some? && b.camera.rccp.Some? {
      F32EqIsEqualityOffNaN(a.camera.rccp.value.vfov, b.camera.rccp.value.vfov);
      F32EqIsEqualityOffNaN(a.camera.rccp.value.aperture, b.camera.rccp.value.aperture);
      F32EqIsEqualityOffNaN(a.camera.rccp.value.focusDistance, b.camera.rccp.value.focusDistance);
    }
    F32EqIsEqualityOffNaN(a.sky.azimuthDegrees, b.sky.azimuthDegrees);
    F32EqIsEqualityOffNaN(a.sky.zenithDegrees, b.sky.zenithDegrees);
    F32EqIsEqualityOffNaN(a.sky.turbidity, b.sky.turbidity);
    F32EqIsEqualityOffNaN(a.sky.albedo.0, b.sky.albedo.0);
    F32EqIsEqualityOffNaN(a.sky.albedo.1, b.sky.albedo.1);
    F32EqIsEqualityOffNaN(a.sky.albedo.2, b.sky.albedo.2);
  }

  /** So `set_render_params` called again with the stored parameters re-validates and resets
      the progress when they hold a NaN, such as the NaN focus distance `validate` accepts. */
  lemma {:induction false} NaNParamsDifferFromThemselves(p: RenderParams)
    requires HasNaN(p)
    ensures !RenderParamsEq(p, p)
  {
    RenderParamsEqIsEqualityWithoutNaN(p, p);
  }

  /** An error of the external analytic sky model. */
  datatype SkyModelError = SkyModelError(reason: string)

  datatype ValidationError =
    | MaxSampleCountNotMultiple(max: u32, num: u32)
    | ViewportSize(width: u32, height: u32)
    | VfovOutOfRange(fov: F32)
    | ApertureOutOfRange(aperture: F32)
    | FocusDistanceOutOfRange(focusDistance: F32)
    | HwSkyModelValidationError(skyError: SkyModelError)

  /** What `validate` demands to run at all: the `%` panics on a zero step, and a camera
      without depth-of-field parameters hits `todo!()`. */
  predicate Validatable(p: RenderParams)
  {
    p.sampling.numSamplesPerPixel != 0 && p.camera.rccp.Some?
  }

  /** `RenderParams::validate`: the first failing check, in order. The field-of-view error
      carries the camera's `fov`, not the checked `vfov`. Accepted parameters have a valid
      sampling budget and a non-empty viewport; a sky error never comes from here. */
  function Validate(p: RenderParams): (r: Result<(), ValidationError>)
    requires Validatable(p)
    ensures r.Ok? ==> ValidSampling(p.sampling) && p.viewportSize.0 != 0 && p.viewportSize.1 != 0
    ensures r.Err? ==> !r.error.HwSkyModelValidationError?
  {
    var rccp := p.camera.rccp.value;
    if p.sampling.maxSamplesPerPixel % p.sampling.numSamplesPerPixel != 0 then
      Err(MaxSampleCountNotMultiple(p.sampling.maxSamplesPerPixel, p.sampling.numSamplesPerPixel))
    else if p.viewportSize.0 == 0 || p.viewportSize.1 == 0 then
      Err(ViewportSize(p.viewportSize.0, p.viewportSize.1))
    else if !InInclusiveRange(rccp.vfov, Finite(0.0), Finite(90.0)) then
      Err(VfovOutOfRange(p.camera.fov))
    else if !InInclusiveRange(rccp.aperture, Finite(0.0), Finite(1.0)) then
      Err(ApertureOutOfRange(rccp.aperture))
    else if Lt(rccp.focusDistance, Finite(0.0)) then
      Err(FocusDistanceOutOfRange(rccp.focusDistance))
    else
      Ok(())
  }

  const CHECK_COUNT: nat := 5

  /** Check `k` of the validator, on its own: does it fail? */
  predicate CheckFails(p: RenderParams, k: nat)
    requires Validatable(p) && k < CHECK_COUNT
  {
    var rccp := p.camera.rccp.value;
    match k
    case 0 => p.sampling.maxSamplesPerPixel % p.sampling.numSamplesPerPixel != 0
    case 1 => p.viewportSize.0 == 0 || p.viewportSize.1 == 0
    case 2 => !(Le(Finite(0.0), rccp.vfov) && Le(rccp.vfov, Finite(90.0)))
    case 3 => !(Le(Finite(0.0), rccp.aperture) && Le(rccp.aperture, Finite(1.0)))
    case _ => Lt(rccp.focusDistance, Finite(0.0))
  }

  /** The error check `k` reports. */
  function CheckError(p: RenderParams, k: nat): ValidationError
    requires Validatable(p) && k < CHECK_COUNT
  {
    var rccp := p.camera.rccp.value;
    match k
    case 0 => MaxSampleCountNotMultiple(p.sampling.maxSamplesPerPixel, p.sampling.numSamplesPerPixel)
    case 1 => ViewportSize(p.viewportSize.0, p.viewportSize.1)
    case 2 => VfovOutOfRange(p.camera.fov)
    case 3 => ApertureOutOfRange(rccp.aperture)
    case _ => FocusDistanceOutOfRange(rccp.focusDistance)
  }

  /** `validate` accepts exactly the parameters that pass all five checks, and otherwise
      reports the error of the first check that fails. */
  lemma {:induction false} ValidateIsFirstFailingCheck(p: RenderParams)
    requires Validatable(p)
    ensures Validate(p).Ok? <==> forall k :: 0 <= k < CHECK_COUNT ==> !CheckFails(p, k)
    ensures forall k :: 0 <= k < CHECK_COUNT && CheckFails(p, k) && (forall j :: 0 <= j < k ==> !CheckFails(p, j)) ==>
      Validate(p) == Err(CheckError(p, k))
  {
    if Validate(p).Ok? {
      forall k | 0 <= k < CHECK_COUNT ensures !CheckFails(p, k) {
        if k == 0 {} else if k == 1 {} else if k == 2 {} else if k == 3 {} else {}
      }
    } else {
      assert CheckFails(p, 0) || CheckFails(p, 1) || CheckFails(p, 2) || CheckFails(p, 3) || CheckFails(p, 4);
    }
    forall k | 0 <= k < CHECK_COUNT && CheckFails(p, k) && (forall j :: 0 <= j < k ==> !CheckFails(p, j))
      ensures Validate(p) == Err(CheckError(p, k))
    {
      if k >= 1 { assert !CheckFails(p, 0); }
      if k >= 2 { assert !CheckFails(p, 1); }
      if k >= 3 { assert !CheckFails(p, 2); }
      if k >= 4 { assert !CheckFails(p, 3); }
    }
  }

  /** The boundary cases of the validator: a step of 3 does not divide 7; a zero width or
      height is refused; 90 degrees and an aperture of 0 or 1 are accepted, 90.0001 degrees
      and an aperture of 1.5 are not; a NaN focus distance passes, since `NaN < 0` is false. */
  lemma ValidateBoundaries(cam: Camera, sky: SkyParams)
    ensures var good := RaycastCameraParams(Finite(90.0), Finite(1.0), NaN);
      var p := RenderParams(cam.(rccp := Some(good)), sky, SamplingParams(256, 1, 8), (1, 1));
      Validate(p).Ok? &&
      Validate(p.(sampling := SamplingParams(7, 3, 8))) == Err(MaxSampleCountNotMultiple(7, 3)) &&
      Validate(p.(viewportSize := (0, 10))) == Err(ViewportSize(0, 10)) &&
      Validate(p.(viewportSize := (10, 0))) == Err(ViewportSize(10, 0)) &&
      Validate(p.(camera := cam.(rccp := Some(good.(vfov := Finite(90.0001)))))).Err? &&
      Validate(p.(camera := cam.(rccp := Some(good.(aperture := Finite(0.0)))))).Ok? &&
      Validate(p.(camera := cam.(rccp := Some(good.(aperture := Finite(1.5)))))).Err?
  {
  }

  // ---------------------------------------------------------------------------
  // Scene encoding

  datatype Scene = Scene(spheres: seq<Sphere.Sphere>, materials: seq<RayCastMaterial>)

  /** Indexing `materials` with each sphere's material index does not panic. */
  predicate MaterialIndicesValid(scene: Scene)
  {
    forall i :: 0 <= i < |scene.spheres| ==> scene.spheres[i].materialIdx as int < |scene.materials|
  }

  /** Sphere `i` is a light: its material is emissive. */
  predicate IsLight(scene: Scene, i: nat)
    requires MaterialIndicesValid(scene) && i < |scene.spheres|
  {
    scene.materials[scene.spheres[i].materialIdx].Emissive?
  }

  /** The light indices of the first `n` spheres (`idx as u32` truncates). */
  function LightIndicesOf(scene: Scene, n: nat): (r: seq<u32>)
    requires MaterialIndicesValid(scene) && n <= |scene.spheres|
    ensures |r| <= n
    decreases n
  {
    if n == 0 then []
    else LightIndicesOf(scene, n - 1) + (if IsLight(scene, n - 1) then [WrapU32(n - 1)] else [])
  }

  /** The light-index array of `Raytracer::new`: the indices of the emissive spheres. */
  function LightIndices(scene: Scene): (r: seq<u32>)
    requires MaterialIndicesValid(scene)
    ensures |r| <= |scene.spheres|
  {
    LightIndicesOf(scene, |scene.spheres|)
  }

  /** The first `n` spheres' light indices are exactly the lights among them, ascending. */
  lemma {:induction false} LightIndicesOfExact(scene: Scene, n: nat)
    requires MaterialIndicesValid(scene) && n <= |scene.spheres| && n <= U32_LIMIT
    ensures forall i :: 0 <= i < |LightIndicesOf(scene, n)| ==> LightIndicesOf(scene, n)[i] as int < n
    ensures forall i :: 0 <= i < n ==> (WrapU32(i) in LightIndicesOf(scene, n) <==> IsLight(scene, i))
    ensures forall i, j :: 0 <= i < j < |LightIndicesOf(scene, n)| ==> LightIndicesOf(scene, n)[i] < LightIndicesOf(scene, n)[j]
    decreases n
  {
    if n > 0 {
      LightIndicesOfExact(scene, n - 1);
      var prev := LightIndicesOf(scene, n - 1);
      var r := LightIndicesOf(scene, n);
      assert WrapU32(n - 1) as int == n - 1;
      forall i | 0 <= i < n ensures (WrapU32(i) in r <==> IsLight(scene, i)) {
        if i < n - 1 {
          assert WrapU32(i) as int == i;
          assert WrapU32(i) != WrapU32(n - 1);
        }
      }
    }
  }

  /** The light-index array lists exactly the spheres with an emissive material, in
      ascending order, as long as every sphere index fits in a `u32`. */
  lemma {:induction false} LightIndicesAreEmissiveSpheres(scene: Scene)
    requires MaterialIndicesValid(scene) && |scene.spheres| <= U32_LIMIT
    ensures forall x :: x in LightIndices(scene) ==> x as int < |scene.spheres| && IsLight(scene, x as nat)
    ensures forall i :: 0 <= i < |scene.spheres| && IsLight(scene, i) ==> WrapU32(i) in LightIndices(scene)
    ensures forall i, j :: 0 <= i < j < |LightIndices(scene)| ==> LightIndices(scene)[i] < LightIndices(scene)[j]
  {
    var n := |scene.spheres|;
    LightIndicesOfExact(scene, n);
    forall x | x in LightIndices(scene) ensures x as int < n && IsLight(scene, x as nat) {
      var k :| 0 <= k < |LightIndices(scene)| && LightIndices(scene)[k] == x;
      assert WrapU32(x as nat) == x;
    }
  }

  /** The material loop of `Raytracer::new`: one GPU record per material, in order, with the
      textures appended to a fresh global texture array. */
  method EncodeSceneMaterials(materials: seq<RayCastMaterial>) returns (materialData: seq<GpuMaterial>, globalTextureData: seq<Rgb>)
    ensures Encoding(materialData, globalTextureData) == EncodeMaterials(materials)
  {
    var g := new GlobalTextureData();
    materialData := [];
    for i := 0 to |materials|
      invariant Encoding(materialData, g.data) == EncodeMaterials(materials[..i])
    {
      var gpuMaterial: GpuMaterial;
      match materials[i] {
        case Lambertian(albedo) => gpuMaterial := NewLambertian(albedo, g);
        case Metal(albedo, fuzz) => gpuMaterial := NewMetal(albedo, fuzz, g);
        case Dielectric(refractionIndex) => gpuMaterial := NewDielectric(refractionIndex);
        case Checkerboard(even, odd) => gpuMaterial := NewCheckerboard(odd, even, g);
        case Emissive(emit) => gpuMaterial := NewEmissive(emit, g);
      }
      materialData := materialData + [gpuMaterial];
      assert materials[..i + 1][..i] == materials[..i];
    }
    assert materials[..|materials|] == materials;
    globalTextureData := g.data;
  }

  // ---------------------------------------------------------------------------
  // The bytes uploaded to the sphere buffer

  /** Size of a `Vec` value itself on a 64-bit target: pointer, capacity and length. */
  const VEC_VALUE_BYTES: nat := 24

  /** A range of memory: its first address and its length in bytes. */
  datatype Region = Region(start: nat, size: nat)

  predicate Disjoint(a: Region, b: Region)
  {
    a.start + a.size <= b.start || b.start + b.size <= a.start
  }

  /** `scene.spheres` in memory: the `Vec` value at `valueAddr`, and its `len` elements on
      the heap from `elementsAddr`, each `size_of::<Sphere>()` (32 bytes) long. */
  datatype SphereVec = SphereVec(valueAddr: nat, elementsAddr: nat, len: nat)

  function ValueRegion(v: SphereVec): Region
  {
    Region(v.valueAddr, VEC_VALUE_BYTES)
  }

  function ElementsRegion(v: SphereVec): Region
  {
    Region(v.elementsAddr, Sphere.RECORD_SIZE * v.len)
  }

  /** The heap buffer of a vector lies outside the vector value. */
  predicate SeparateStorage(v: SphereVec)
  {
    Disjoint(ValueRegion(v), ElementsRegion(v))
  }

  /** The sphere-buffer upload of `Raytracer::new` as written:
      `from_raw_parts(&scene.spheres as *const _ as *const u8, size_of::<Sphere>() * len)`,
      which starts at the address of the `Vec` value. */
  function SphereUploadAsWritten(v: SphereVec): Region
  {
    Region(v.valueAddr, Sphere.RECORD_SIZE * v.len)
  }

  /** The upload as intended (`bytemuck::cast_slice(scene.spheres.as_slice())`, left
      commented out): the elements themselves. */
  function SphereUpload(v: SphereVec): Region
  {
    Region(v.elementsAddr, Sphere.RECORD_SIZE * v.len)
  }

  /** For any non-empty scene the as-written upload reads the vector's pointer, capacity
      and length as its first 24 bytes, goes on past the end of the `Vec` value, and does
      not start at the spheres. */
  lemma {:induction false} SphereUploadAsWrittenReadsTheVecValue(v: SphereVec)
    requires SeparateStorage(v) && v.len >= 1
    ensures var r := SphereUploadAsWritten(v);
      r.start == ValueRegion(v).start &&
      r.start + r.size > ValueRegion(v).start + VEC_VALUE_BYTES &&
      r.start != ElementsRegion(v).start
  {
  }

  /** The intended upload is exactly the elements: sphere `k` occupies the `k`-th 32-byte
      slot of the uploaded range, and nothing outside the heap buffer is read. */
  lemma {:induction false} SphereUploadIsTheSpheres(v: SphereVec, k: nat)
    requires k < v.len
    ensures SphereUpload(v) == ElementsRegion(v)
    ensures var r := SphereUpload(v);
      r.start <= v.elementsAddr + Sphere.RECORD_SIZE * k &&
      v.elementsAddr + Sphere.RECORD_SIZE * k + Sphere.RECORD_SIZE <= r.start + r.size
  {
    MulLe(k + 1, v.len, Sphere.RECORD_SIZE);
  }

  // ---------------------------------------------------------------------------
  // The orchestrator

  /** The sky-state record uploaded to the GPU (its contents come from the sky model). */
  datatype GpuSkyState = GpuSkyState(params: seq<F32>, radiances: seq<F32>, sunDirection: seq<F32>)

  /** `SkyParams::to_sky_state`, trigonometry plus an external library; it may fail. */
  type SkyAdapter = SkyParams -> Result<GpuSkyState, SkyModelError>

  const FRAME_DATA_WORDS: nat := 4

  class Raytracer {
    var latestRenderParams: RenderParams
    var renderProgress: RenderProgress
    var frameNumber: u32
    /** Last contents written to the sampling-parameter uniform buffer (zero-initialised). */
    var samplingParameterBuffer: GpuSamplingParams
    /** Contents of the 16-byte frame-data uniform buffer, as four `u32` words. */
    var frameDataBuffer: seq<u32>
    /** Number of pixels the accumulation image buffer was sized for. */
    const imageBufferPixels: nat
    /** Contents of the scene bind group's storage buffers. */
    const sphereBuffer: seq<Sphere.Sphere>
    const materialBuffer: seq<GpuMaterial>
    const textureBuffer: seq<Rgb>
    const lightBuffer: seq<u32>

    /** The object invariant: the stored parameters passed validation, so the sampling
        budget is valid, and the accumulated count keeps its invariant. */
    ghost predicate Valid()
      reads this, renderProgress
    {
      |frameDataBuffer| == FRAME_DATA_WORDS &&
      ValidSampling(latestRenderParams.sampling) &&
      AccumulationInvariant(renderProgress.accumulatedSamplesPerPixel, latestRenderParams.sampling)
    }

    constructor Init(params: RenderParams, maxViewportResolution: u32, scene: Scene,
                     materialData: seq<GpuMaterial>, globalTextureData: seq<Rgb>, lights: seq<u32>)
      requires ValidSampling(params.sampling)
      ensures Valid() && fresh(renderProgress)
      ensures latestRenderParams == params && renderProgress.accumulatedSamplesPerPixel == 0
      ensures frameNumber == 1
      ensures samplingParameterBuffer == GpuSamplingParams(0, 0, 0, 0) && frameDataBuffer == [0, 0, 0, 0]
      ensures imageBufferPixels == maxViewportResolution as nat
      ensures sphereBuffer == scene.spheres && materialBuffer == materialData
      ensures textureBuffer == globalTextureData && lightBuffer == lights
    {
      ResetKeepsInvariant(params.sampling);
      latestRenderParams := params;
      renderProgress := new RenderProgress();
      frameNumber := 1;
      samplingParameterBuffer := GpuSamplingParams(0, 0, 0, 0);
      frameDataBuffer := [0, 0, 0, 0];
      imageBufferPixels := maxViewportResolution as nat;
      sphereBuffer := scene.spheres;
      materialBuffer := materialData;
      textureBuffer := globalTextureData;
      lightBuffer := lights;
    }

    /** `Raytracer::render_frame`: one `next_frame`, whose record is uploaded; the frame data
        `[width, height, frame_number]` is uploaded with the counter before its increment;
        then the counter moves on by one (`u32` addition, wrapping). */
    method RenderFrame()
      requires Valid()
      modifies this, renderProgress
      ensures Valid()
      ensures renderProgress == old(renderProgress) && latestRenderParams == old(latestRenderParams)
      ensures var step := ProgressStep(old(renderProgress.accumulatedSamplesPerPixel), latestRenderParams.sampling);
        samplingParameterBuffer == step.gpu && renderProgress.accumulatedSamplesPerPixel == step.accumulated
      ensures frameDataBuffer == [latestRenderParams.viewportSize.0, latestRenderParams.viewportSize.1, old(frameNumber)] + old(frameDataBuffer)[3..]
      ensures frameNumber == WrapU32(old(frameNumber) as nat + 1)
    {
      var gpuSamplingParams := renderProgress.NextFrame(latestRenderParams.sampling);
      ProgressStepKeepsInvariant(old(renderProgress.accumulatedSamplesPerPixel), latestRenderParams.sampling);
      samplingParameterBuffer := gpuSamplingParams;

      var viewportSize := latestRenderParams.viewportSize;
      var frameData := [viewportSize.0, viewportSize.1, frameNumber];
      frameDataBuffer := frameData + frameDataBuffer[3..];

      frameNumber := WrapU32(frameNumber as nat + 1);
    }

    /** `Raytracer::set_render_params`: nothing happens for parameters equal to the stored
        ones under `PartialEq` (so never for parameters holding a NaN); otherwise a validation or sky-model error is returned with nothing changed,
        and on success the parameters are stored and the progress is reset. */
    method SetRenderParams(params: RenderParams, toSkyState: SkyAdapter) returns (r: Result<(), ValidationError>)
      requires Valid()
      requires !RenderParamsEq(params, latestRenderParams) ==> Validatable(params)
      modifies this, renderProgress
      ensures Valid()
      ensures renderProgress == old(renderProgress) && frameNumber == old(frameNumber)
      ensures samplingParameterBuffer == old(samplingParameterBuffer) && frameDataBuffer == old(frameDataBuffer)
      ensures RenderParamsEq(params, old(latestRenderParams)) ==>
        r == Ok(()) && latestRenderParams == old(latestRenderParams) &&
        renderProgress.accumulatedSamplesPerPixel == old(renderProgress.accumulatedSamplesPerPixel)
      ensures !RenderParamsEq(params, old(latestRenderParams)) && Validate(params).Err? ==>
        r == Err(Validate(params).error) && latestRenderParams == old(latestRenderParams) &&
        renderProgress.accumulatedSamplesPerPixel == old(renderProgress.accumulatedSamplesPerPixel)
      ensures !RenderParamsEq(params, old(latestRenderParams)) && Validate(params).Ok? && toSkyState(params.sky).Err? ==>
        r == Err(HwSkyModelValidationError(toSkyState(params.sky).error)) && latestRenderParams == old(latestRenderParams) &&
        renderProgress.accumulatedSamplesPerPixel == old(renderProgress.accumulatedSamplesPerPixel)
      ensures !RenderParamsEq(params, old(latestRenderParams)) && Validate(params).Ok? && toSkyState(params.sky).Ok? ==>
        r == Ok(()) && latestRenderParams == params && renderProgress.accumulatedSamplesPerPixel == 0
    {
      if RenderParamsEq(params, latestRenderParams) {
        return Ok(());
      }
      var validation := Validate(params);
      if validation.Err? {
        return Err(validation.error);
      }
      var skyState := toSkyState(params.sky);
      if skyState.Err? {
        return Err(HwSkyModelValidationError(skyState.error));
      }
      ResetKeepsInvariant(params.sampling);
      latestRenderParams := params;
      renderProgress.Reset();
      r := Ok(());
    }
  }

  /** `Raytracer::new`: validates the parameters, builds the sky state (which may fail),
      encodes the scene and starts with a fresh progress and frame number 1. */
  method NewRaytracer(scene: Scene, params: RenderParams, maxViewportResolution: u32, toSkyState: SkyAdapter)
    returns (r: Result<Raytracer, ValidationError>)
    requires Validatable(params)
    requires Validate(params).Ok? && toSkyState(params.sky).Ok? ==> MaterialIndicesValid(scene)
    ensures Validate(params).Err? ==> r == Err(Validate(params).error)
    ensures Validate(params).Ok? && toSkyState(params.sky).Err? ==>
      r == Err(HwSkyModelValidationError(toSkyState(params.sky).error))
    ensures r.Ok? <==> Validate(params).Ok? && toSkyState(params.sky).Ok?
    ensures r.Ok? ==>
      var t := r.value;
      fresh(t) && fresh(t.renderProgress) && t.Valid() &&
      t.latestRenderParams == params && t.renderProgress.accumulatedSamplesPerPixel == 0 &&
      t.frameNumber == 1 && t.imageBufferPixels == maxViewportResolution as nat &&
      t.sphereBuffer == scene.spheres &&
      Encoding(t.materialBuffer, t.textureBuffer) == EncodeMaterials(scene.materials) &&
      t.lightBuffer == LightIndices(scene)
  {
    var validation := Validate(params);
    if validation.Err? {
      return Err(validation.error);
    }
    var skyState := toSkyState(params.sky);
    if skyState.Err? {
      return Err(HwSkyModelValidationError(skyState.error));
    }
    var materialData, globalTextureData := EncodeSceneMaterials(scene.materials);
    var lights := LightIndices(scene);
    var t := new Raytracer.Init(params, maxViewportResolution, scene, materialData, globalTextureData, lights);
    r := Ok(t);
  }
}
