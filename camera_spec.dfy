/**
 * The camera controller's behaviour as functions on the context value `Ctx`:
 * the tuning clamp, the sensor writes, the low-light hysteresis controller,
 * the clock ladder, configuration reconciliation and the resilient grab.
 * `CameraController` proves its imperative routines equal to these; the
 * lemmas here state what the routines promise.
 */
module CameraSpec {
  import opened EspCamera
  import opened AppContext
  import opened FrameSizes
  import opened Wrappers

  // ---------------------------------------------------------------------------
  // Constants

  const LOW_LIGHT_AEC_ACTIVATE := 850
  const LOW_LIGHT_AEC_RELEASE := 700
  const LOW_LIGHT_GAIN_ACTIVATE := 24
  const LOW_LIGHT_GAIN_RELEASE := 18
  const LOW_LIGHT_SCORE_THRESHOLD := 3
  const LOW_LIGHT_SCORE_MAX := 6

  const XCLK_20MHZ := 20000000
  const XCLK_16_5MHZ := 16500000
  const XCLK_10MHZ := 10000000

  /** Pause between two rungs of the clock ladder, and before a step-down re-init. */
  const INIT_RETRY_DELAY_MS: nat := 200
  /** Pause between tearing the camera down and re-initialising it for a new frame size. */
  const RECONFIG_DELAY_MS: nat := 150

  const GRAB_STREAK_REINIT := 3
  const REINIT_DEBOUNCE_MS := 7000

  /** The smaller sizes a failed grab retries at, in the order tried. */
  const FallbackSizes: seq<FrameSize> := [FRAMESIZE_SVGA, FRAMESIZE_VGA, FRAMESIZE_QVGA]

  // ---------------------------------------------------------------------------
  // Clamps and the sensor register encoding

  /** Arduino `constrain(x, lo, hi)`. */
  function Constrain(x: int, lo: int, hi: int): (r: int)
    requires lo <= hi
    ensures lo <= r <= hi
    ensures lo <= x <= hi ==> r == x
    ensures x < lo ==> r == lo
    ensures x > hi ==> r == hi
  {
    if x < lo then lo else if x > hi then hi else x
  }

  /** `gainceilingFromIndex`: the index clamped into the six-entry map 2X..64X. */
  function GainceilingFromIndex(idx: int): (g: int)
    ensures GAINCEILING_2X <= g <= GAINCEILING_64X
    ensures 0 <= idx <= 5 ==> g == idx
    ensures idx < 0 ==> g == GAINCEILING_2X
    ensures idx > 5 ==> g == GAINCEILING_64X
  {
    var kMap := [GAINCEILING_2X, GAINCEILING_4X, GAINCEILING_8X,
                 GAINCEILING_16X, GAINCEILING_32X, GAINCEILING_64X];
    kMap[Constrain(idx, 0, |kMap| - 1)]
  }

  /** A boolean as the 1/0 a sensor setter takes. */
  function BoolReg(b: bool): int {
    if b then 1 else 0
  }

  /** The ranges the sensor accepts for each numeric tuning field. */
  predicate TuningInRange(t: SensorTuning) {
    && 0 <= t.wbMode <= 4
    && -2 <= t.brightness <= 2 && -2 <= t.contrast <= 2
    && -2 <= t.saturation <= 2 && -2 <= t.sharpness <= 2
    && -2 <= t.aeLevel <= 2
    && 0 <= t.specialEffect <= 6
    && t.gainceilingIndex <= 5
  }

  /** The two snapshots have the same on/off switches. */
  predicate SameSwitches(a: SensorTuning, b: SensorTuning) {
    && a.whitebal == b.whitebal && a.hmirror == b.hmirror && a.vflip == b.vflip
    && a.awbGain == b.awbGain && a.gainCtrl == b.gainCtrl && a.exposureCtrl == b.exposureCtrl
    && a.lensCorr == b.lensCorr && a.rawGma == b.rawGma && a.bpcEnabled == b.bpcEnabled
    && a.wpcEnabled == b.wpcEnabled && a.dcwEnabled == b.dcwEnabled
    && a.colorbarEnabled == b.colorbarEnabled
  }

  /** The active snapshot `applyManualSensorParams` derives from a target. */
  function ClampTuning(t: SensorTuning): SensorTuning {
    t.(wbMode := Constrain(t.wbMode, 0, 4),
       brightness := Constrain(t.brightness, -2, 2),
       contrast := Constrain(t.contrast, -2, 2),
       saturation := Constrain(t.saturation, -2, 2),
       sharpness := Constrain(t.sharpness, -2, 2),
       gainceilingIndex := if t.gainceilingIndex > 5 then 5 else t.gainceilingIndex,
       aeLevel := Constrain(t.aeLevel, -2, 2),
       specialEffect := Constrain(t.specialEffect, 0, 6))
  }

  /** The registers after writing snapshot `a` through the twenty manual setters. */
  function Encode(r: SensorRegs, a: SensorTuning): SensorRegs {
    r.(whitebal := BoolReg(a.whitebal), wbMode := a.wbMode,
       hmirror := BoolReg(a.hmirror), vflip := BoolReg(a.vflip),
       brightness := a.brightness, contrast := a.contrast,
       saturation := a.saturation, sharpness := a.sharpness,
       awbGain := BoolReg(a.awbGain), gainCtrl := BoolReg(a.gainCtrl),
       exposureCtrl := BoolReg(a.exposureCtrl),
       gainceiling := GainceilingFromIndex(a.gainceilingIndex),
       aeLevel := a.aeLevel, lenc := BoolReg(a.lensCorr), rawGma := BoolReg(a.rawGma),
       bpc := BoolReg(a.bpcEnabled), wpc := BoolReg(a.wpcEnabled), dcw := BoolReg(a.dcwEnabled),
       colorbar := BoolReg(a.colorbarEnabled), specialEffect := a.specialEffect)
  }

  /** `applyLowLightProfile` on the registers; `target` supplies the exposure level. */
  function ProfileRegs(r: SensorRegs, on: bool, target: SensorTuning): SensorRegs {
    if !on then r.(aec2 := 0)
    else
      r.(gainCtrl := 1, awbGain := 1, exposureCtrl := 1, gainceiling := GAINCEILING_32X,
         aec2 := 1, aeLevel := Constrain(target.aeLevel, 0, 2), dcw := 1, bpc := 1, wpc := 1)
  }

  /** What a full refresh leaves in the registers: the manual pass, then the profile. */
  function TunedRegs(r: SensorRegs, t: SensorTuning, on: bool): SensorRegs {
    ProfileRegs(Encode(r, ClampTuning(t)), on, t)
  }

  // ---------------------------------------------------------------------------
  // Tuning passes on the context. The sensor handle is non-null iff the driver is up.

  /** `applyManualSensorParams`. */
  function ApplyManual(c: Ctx): Ctx {
    if !c.hw.up then c
    else
      var a := ClampTuning(c.camera.target);
      c.(hw := c.hw.(regs := Encode(c.hw.regs, a)), camera := c.camera.(tuning := a))
  }

  /** `applyLowLightProfile`. */
  function ApplyProfile(c: Ctx, on: bool): Ctx {
    if !c.hw.up then c
    else c.(hw := c.hw.(regs := ProfileRegs(c.hw.regs, on, c.camera.target)))
  }

  /** Whether the boosted profile should be on. */
  predicate Boosted(l: LowLightState) {
    l.boostEnabled && l.active
  }

  /** `applyAdvancedParams`. */
  function ApplyAdvanced(c: Ctx): Ctx {
    if !c.hw.up then c
    else
      var m := ApplyManual(c);
      if Boosted(c.lowLight) then ApplyProfile(m, true) else m
  }

  /** `RefreshLowLightProfileInternal`. */
  function Refresh(c: Ctx): Ctx {
    if !c.camera.inited || !c.hw.up then c
    else ApplyProfile(ApplyManual(c), Boosted(c.lowLight))
  }

  /** `ResetLowLightStateInternal`. */
  function Reset(c: Ctx): Ctx {
    Refresh(c.(lowLight := c.lowLight.(score := 0, active := false)))
  }

  // ---------------------------------------------------------------------------
  // Low-light hysteresis

  predicate RequestBoost(aec: U16, gain: U8) {
    aec >= LOW_LIGHT_AEC_ACTIVATE || gain >= LOW_LIGHT_GAIN_ACTIVATE
  }

  predicate RequestRelease(aec: U16, gain: U8) {
    aec <= LOW_LIGHT_AEC_RELEASE && gain <= LOW_LIGHT_GAIN_RELEASE
  }

  /**
   * One observer step of the score: up by one (to at most 6) on a boost
   * request; down by one (to at least 0) otherwise, in the release zone and
   * in the zone between the two thresholds alike.
   */
  function ScoreStep(score: U8, aec: U16, gain: U8): (s: U8)
    ensures score <= LOW_LIGHT_SCORE_MAX ==> s <= LOW_LIGHT_SCORE_MAX
    ensures -1 <= s - score <= 1
    ensures RequestBoost(aec, gain) ==> s == (if score < LOW_LIGHT_SCORE_MAX then score + 1 else score)
    ensures !RequestBoost(aec, gain) ==> s == (if score > 0 then score - 1 else 0)
  {
    if RequestBoost(aec, gain) then
      (if score < LOW_LIGHT_SCORE_MAX then score + 1 else score)
    else if RequestRelease(aec, gain) then
      (if score > 0 then score - 1 else score)
    else if score > 0 then score - 1
    else score
  }

  /** `updateLowLightObserver` with the given status readings, at time `now`. */
  function Observe(c: Ctx, aec: U16, gain: U8, now: U32): Ctx {
    if !c.lowLight.boostEnabled then c
    else
      var s := ScoreStep(c.lowLight.score, aec, gain);
      var na := s >= LOW_LIGHT_SCORE_THRESHOLD;
      var c1 := c.(lowLight := c.lowLight.(score := s));
      if na != c1.lowLight.active then
        var c2 := Refresh(c1.(lowLight := c1.lowLight.(active := na)));
        c2.(lowLight := c2.lowLight.(lastLogMs := now))
      else c1
  }

  /** `EvaluateLowLightMetricsInternal`: one observer step on the sensor's current readings. */
  function Evaluate(c: Ctx, now: U32): Ctx {
    if !c.lowLight.boostEnabled || !c.camera.inited || !c.hw.up then c
    else Observe(c, c.hw.aec, c.hw.agc, now)
  }

  // ---------------------------------------------------------------------------
  // Clock ladder

  /** `initCameraWithXclk`. */
  function InitWithXclk(c: Ctx, xclk: int): (Ctx, bool) {
    var c1 := c.(camera := c.camera.(currentXclkHz := xclk));
    var (d, ok) := CameraInit(c1.hw, xclk, c1.camera.frameSize, c1.camera.jpegQuality);
    if !ok then (c1.(hw := d, camera := c1.camera.(inited := false)), false)
    else
      var d2 := if d.up then d.(regs := d.regs.(frameSize := c1.camera.frameSize,
                                                quality := c1.camera.jpegQuality))
                else d;
      var c2 := c1.(hw := d2, camera := c1.camera.(inited := true));
      (Refresh(ApplyAdvanced(c2)), true)
  }

  /** `initCamera`: 20 MHz, then 16.5 MHz, then 10 MHz, with a pause between rungs. */
  function InitCamera(c: Ctx): (Ctx, bool) {
    var (c1, ok1) := InitWithXclk(c, XCLK_20MHZ);
    if ok1 then (c1, true)
    else
      var (c2, ok2) := InitWithXclk(c1.(hw := Sleep(c1.hw, INIT_RETRY_DELAY_MS)), XCLK_16_5MHZ);
      if ok2 then (c2, true)
      else InitWithXclk(c2.(hw := Sleep(c2.hw, INIT_RETRY_DELAY_MS)), XCLK_10MHZ)
  }

  /** The rung below the current clock; the clock itself at 10 MHz or below. */
  function NextXclk(cur: int): (next: int)
    ensures next <= cur
    ensures cur > XCLK_10MHZ ==> next < cur && next >= XCLK_10MHZ
    ensures cur <= XCLK_10MHZ ==> next == cur
  {
    if cur > XCLK_16_5MHZ then XCLK_16_5MHZ
    else if cur > XCLK_10MHZ then XCLK_10MHZ
    else cur
  }

  /** `maybeReinitLowerXclk`. */
  function ReinitLower(c: Ctx): Ctx {
    var next := NextXclk(c.camera.currentXclkHz);
    if next == c.camera.currentXclkHz then c
    else
      var c1 := c.(hw := Sleep(CameraDeinit(c.hw), INIT_RETRY_DELAY_MS),
                   camera := c.camera.(inited := false));
      InitWithXclk(c1, next).0
  }

  // ---------------------------------------------------------------------------
  // Reconciliation

  /** The tuning pass at the end of `applyConfigIfNeeded`. */
  function TuningPass(c: Ctx): Ctx {
    var a := ApplyAdvanced(c);
    if !a.lowLight.boostEnabled then Reset(a) else Refresh(a)
  }

  /** `applyConfigIfNeeded`. */
  function ApplyConfig(c: Ctx): Ctx {
    if !c.camera.inited then c
    else if c.camera.frameSizeTarget != c.camera.frameSize then
      var c1 := c.(hw := Sleep(CameraDeinit(c.hw), RECONFIG_DELAY_MS),
                   camera := c.camera.(inited := false,
                                       frameSize := c.camera.frameSizeTarget,
                                       frameSizeKey := c.camera.frameSizeKeyTarget,
                                       jpegQuality := c.camera.jpegQualityTarget));
      var (c2, ok) := InitCamera(c1);
      if !ok then c2 else TuningPass(c2)
    else
      var q := c.camera.jpegQualityTarget;
      var c1 := if q != c.camera.jpegQuality && c.hw.up
                then c.(hw := c.hw.(regs := c.hw.regs.(quality := q)),
                        camera := c.camera.(jpegQuality := q))
                else c;
      TuningPass(c1)
  }

  // ---------------------------------------------------------------------------
  // Resilient grab

  /**
   * The fallback loop of `safeGrab` from position `i` on, on a driver whose
   * sensor is present: the size whose grab succeeded (the sensor is then put
   * back to `wanted`), or `None` when every remaining candidate failed.
   */
  function FallbackGrab(d: Driver, wanted: FrameSize, i: nat): (Driver, Option<FrameSize>)
    decreases |FallbackSizes| - i
  {
    if i >= |FallbackSizes| then (d, None)
    else if FallbackSizes[i] >= wanted then FallbackGrab(d, wanted, i + 1)
    else
      var got := FbGet(d.(regs := d.regs.(frameSize := FallbackSizes[i])));
      if got.1 then (got.0.(regs := got.0.regs.(frameSize := wanted)), Some(FallbackSizes[i]))
      else FallbackGrab(got.0, wanted, i + 1)
  }

  /** The grab attempts of `safeGrab`: the plain grab, then the fallback sizes. */
  function GrabAttempts(c: Ctx): (Ctx, bool) {
    var (d, ok) := FbGet(c.hw);
    if ok then
      (c.(hw := d, camera := c.camera.(failedGrabStreak := 0,
                                       lastUsedFrameSizeKey := KeyFromFramesize(c.camera.frameSize))), true)
    else
      var c1 := c.(hw := d, camera := c.camera.(failedGrabStreak := IncU8(c.camera.failedGrabStreak)));
      if !c1.hw.up then (c1, false)
      else
        var wanted := c1.camera.frameSize;
        var (d2, hit) := FallbackGrab(c1.hw, wanted, 0);
        match hit
        case Some(fs) =>
          (c1.(hw := d2, camera := c1.camera.(lastUsedFrameSizeKey := KeyFromFramesize(fs),
                                              failedGrabStreak := 0)), true)
        case None =>
          (c1.(hw := d2.(regs := d2.regs.(frameSize := wanted))), false)
  }

  /** Whether a failed grab at time `now` triggers the step-down re-init. */
  predicate ReinitDue(c: Ctx, now: U32) {
    c.camera.failedGrabStreak >= GRAB_STREAK_REINIT
    && SubU32(now, c.camera.lastReinitMs) > REINIT_DEBOUNCE_MS
  }

  /** `safeGrab` at time `now`; the boolean says whether a frame was handed out. */
  function SafeGrab(c: Ctx, now: U32): (Ctx, bool) {
    var (c1, ok) := GrabAttempts(c);
    if ok then (c1, true)
    else if ReinitDue(c1, now) then
      (ReinitLower(c1.(camera := c1.camera.(lastReinitMs := now))), false)
    else (c1, false)
  }

  // ---------------------------------------------------------------------------
  // The invariant the controller keeps

  /** The low-light state: a bounded score, `active` its threshold test, all clear when boost is off. */
  predicate LowLightValid(l: LowLightState) {
    && l.score <= LOW_LIGHT_SCORE_MAX
    && l.active == (l.score >= LOW_LIGHT_SCORE_THRESHOLD)
    && (!l.boostEnabled ==> l.score == 0)
  }

  /**
   * While the camera is initialised, the sensor runs at the recorded frame size
   * and quality, the active snapshot is the clamped target, and the registers
   * hold the manual pass followed by the profile the low-light state calls for.
   */
  predicate SensorInSync(c: Ctx) {
    c.camera.inited ==>
      && c.hw.regs.frameSize == c.camera.frameSize
      && c.hw.regs.quality == c.camera.jpegQuality
      && c.camera.tuning == ClampTuning(c.camera.target)
      && c.hw.regs == TunedRegs(c.hw.regs, c.camera.target, Boosted(c.lowLight))
  }

  /**
   * The invariant without its tuning half: what is left of `Valid` after the
   * targets have been rewritten and before they are applied.
   */
  predicate ValidUpToTuning(c: Ctx) {
    && LowLightValid(c.lowLight)
    && c.camera.inited == c.hw.up
    && (c.camera.inited ==>
          c.hw.regs.frameSize == c.camera.frameSize && c.hw.regs.quality == c.camera.jpegQuality)
  }

  predicate Valid(c: Ctx) {
    && LowLightValid(c.lowLight)
    && c.camera.inited == c.hw.up
    && SensorInSync(c)
  }
}
