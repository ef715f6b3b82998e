/**
 * The camera controller's routines as imperative code over the global context
 * `FirmwareState`: each one updates the context field by field, as the
 * firmware does, and is proved to leave exactly the context its `CameraSpec`
 * function describes. What those functions promise is proved in
 * `CameraLemmas` and `CameraLifecycle`.
 */
module CameraController {
  import opened EspCamera
  import opened AppContext
  import opened FrameSizes
  import opened CameraSpec

  /** `applyLowLightProfile` on the sensor of the running camera. */
  method ApplyLowLightProfile(ctx: FirmwareState, active: bool)
    modifies ctx
    ensures ctx.Snap() == ApplyProfile(old(ctx.Snap()), active)
  {
    if !ctx.hw.up {
      return;
    }
    var r := ctx.hw.regs;
    if !active {
      r := r.(aec2 := 0);
      ctx.hw := ctx.hw.(regs := r);
      return;
    }
    r := r.(gainCtrl := 1);
    r := r.(awbGain := 1);
    r := r.(exposureCtrl := 1);
    r := r.(gainceiling := GAINCEILING_32X);
    r := r.(aec2 := 1);
    var boostAe := Constrain(ctx.camera.target.aeLevel, 0, 2);
    r := r.(aeLevel := boostAe);
    r := r.(dcw := 1);
    r := r.(bpc := 1);
    r := r.(wpc := 1);
    ctx.hw := ctx.hw.(regs := r);
  }

  /**
   * The clamping half of `applyManualSensorParams`: each numeric field of the
   * target clamped into the range the sensor accepts, the switches as they are.
   */
  method ClampTarget(target: SensorTuning) returns (active: SensorTuning)
    ensures active == ClampTuning(target)
  {
    var wb := Constrain(target.wbMode, 0, 4);
    var bri := Constrain(target.brightness, -2, 2);
    var con := Constrain(target.contrast, -2, 2);
    var sat := Constrain(target.saturation, -2, 2);
    var shp := Constrain(target.sharpness, -2, 2);
    var ae := Constrain(target.aeLevel, -2, 2);
    var spe := Constrain(target.specialEffect, 0, 6);
    var gcIdx := target.gainceilingIndex;
    if gcIdx > 5 {
      gcIdx := 5;
    }
    active := SensorTuning(
      target.whitebal, wb, target.hmirror, target.vflip, bri, con, sat, shp,
      target.awbGain, target.gainCtrl, target.exposureCtrl, gcIdx, ae,
      target.lensCorr, target.rawGma, target.bpcEnabled, target.wpcEnabled, target.dcwEnabled,
      target.colorbarEnabled, spe);
  }

  /**
   * `applyManualSensorParams` on the sensor of the running camera: the
   * clamped target is written through the twenty setters and every field of
   * the active snapshot is overwritten with the value written.
   */
  method ApplyManualSensorParams(ctx: FirmwareState)
    modifies ctx
    ensures ctx.Snap() == ApplyManual(old(ctx.Snap()))
  {
    if !ctx.hw.up {
      return;
    }
    var a := ClampTarget(ctx.camera.target);
    var regs := ctx.hw.regs.(
      whitebal := BoolReg(a.whitebal), wbMode := a.wbMode,
      hmirror := BoolReg(a.hmirror), vflip := BoolReg(a.vflip),
      brightness := a.brightness, contrast := a.contrast,
      saturation := a.saturation, sharpness := a.sharpness,
      awbGain := BoolReg(a.awbGain), gainCtrl := BoolReg(a.gainCtrl),
      exposureCtrl := BoolReg(a.exposureCtrl),
      gainceiling := GainceilingFromIndex(a.gainceilingIndex), aeLevel := a.aeLevel,
      lenc := BoolReg(a.lensCorr), rawGma := BoolReg(a.rawGma),
      bpc := BoolReg(a.bpcEnabled), wpc := BoolReg(a.wpcEnabled),
      dcw := BoolReg(a.dcwEnabled), colorbar := BoolReg(a.colorbarEnabled),
      specialEffect := a.specialEffect);
    ctx.hw := ctx.hw.(regs := regs);
    ctx.camera := ctx.camera.(tuning := a);
  }

  /** `applyAdvancedParams`: the manual pass, then the boosted profile if it is on. */
  method ApplyAdvancedParams(ctx: FirmwareState)
    modifies ctx
    ensures ctx.Snap() == ApplyAdvanced(old(ctx.Snap()))
  {
    if !ctx.hw.up {
      return;
    }
    ApplyManualSensorParams(ctx);
    if ctx.lowLight.boostEnabled && ctx.lowLight.active {
      ApplyLowLightProfile(ctx, true);
    }
  }

  /** `refreshLowLightProfile`: the manual pass and the profile the low-light state calls for. */
  method RefreshLowLightProfile(ctx: FirmwareState)
    modifies ctx
    ensures ctx.Snap() == Refresh(old(ctx.Snap()))
  {
    if !ctx.camera.inited || !ctx.hw.up {
      return;
    }
    ApplyManualSensorParams(ctx);
    ApplyLowLightProfile(ctx, ctx.lowLight.boostEnabled && ctx.lowLight.active);
  }

  /** `resetLowLightState`: score and active flag cleared, then a refresh. */
  method ResetLowLightState(ctx: FirmwareState)
    modifies ctx
    ensures ctx.Snap() == Reset(old(ctx.Snap()))
  {
    ctx.lowLight := ctx.lowLight.(score := 0);
    ctx.lowLight := ctx.lowLight.(active := false);
    RefreshLowLightProfile(ctx);
  }

  /** `updateLowLightObserver` with the readings `aec` and `gain`, at time `now`. */
  method UpdateLowLightObserver(ctx: FirmwareState, aec: U16, gain: U8, now: U32)
    modifies ctx
    ensures ctx.Snap() == Observe(old(ctx.Snap()), aec, gain, now)
  {
    if !ctx.lowLight.boostEnabled {
      return;
    }
    var requestBoost := aec >= LOW_LIGHT_AEC_ACTIVATE || gain >= LOW_LIGHT_GAIN_ACTIVATE;
    var requestRelease := aec <= LOW_LIGHT_AEC_RELEASE && gain <= LOW_LIGHT_GAIN_RELEASE;
    var score := ctx.lowLight.score;
    if requestBoost {
      if score < LOW_LIGHT_SCORE_MAX {
        score := score + 1;
      }
    } else if requestRelease {
      if score > 0 {
        score := score - 1;
      }
    } else if score > 0 {
      score := score - 1;
    }
    assert score == ScoreStep(ctx.lowLight.score, aec, gain);
    ctx.lowLight := ctx.lowLight.(score := score);

    var newActive := score >= LOW_LIGHT_SCORE_THRESHOLD;
    if newActive != ctx.lowLight.active {
      ctx.lowLight := ctx.lowLight.(active := newActive);
      RefreshLowLightProfile(ctx);
      ctx.lowLight := ctx.lowLight.(lastLogMs := now);
    }
  }

  /** `evaluateLowLightMetrics`: one observer step on the sensor's status readings. */
  method EvaluateLowLightMetrics(ctx: FirmwareState, now: U32)
    modifies ctx
    ensures ctx.Snap() == Evaluate(old(ctx.Snap()), now)
  {
    if !ctx.lowLight.boostEnabled || !ctx.camera.inited {
      return;
    }
    if !ctx.hw.up {
      return;
    }
    UpdateLowLightObserver(ctx, ctx.hw.aec, ctx.hw.agc, now);
  }

  /** `initCameraWithXclk`: one init attempt at the given clock. */
  method InitCameraWithXclk(ctx: FirmwareState, xclkHz: int) returns (ok: bool)
    modifies ctx
    ensures (ctx.Snap(), ok) == InitWithXclk(old(ctx.Snap()), xclkHz)
  {
    ctx.camera := ctx.camera.(currentXclkHz := xclkHz);
    var (d, initOk) := CameraInit(ctx.hw, xclkHz, ctx.camera.frameSize, ctx.camera.jpegQuality);
    ctx.hw := d;
    if !initOk {
      ctx.camera := ctx.camera.(inited := false);
      return false;
    }
    if ctx.hw.up {
      ctx.hw := ctx.hw.(regs := ctx.hw.regs.(frameSize := ctx.camera.frameSize));
      ctx.hw := ctx.hw.(regs := ctx.hw.regs.(quality := ctx.camera.jpegQuality));
    }
    ctx.camera := ctx.camera.(inited := true);
    ApplyAdvancedParams(ctx);
    RefreshLowLightProfile(ctx);
    return true;
  }

  /** `maybeReinitLowerXclk`: tear down and re-init one rung lower, if there is one. */
  method MaybeReinitLowerXclk(ctx: FirmwareState)
    modifies ctx
    ensures ctx.Snap() == ReinitLower(old(ctx.Snap()))
  {
    var next := ctx.camera.currentXclkHz;
    if ctx.camera.currentXclkHz > XCLK_16_5MHZ {
      next := XCLK_16_5MHZ;
    } else if ctx.camera.currentXclkHz > XCLK_10MHZ {
      next := XCLK_10MHZ;
    }
    if next != ctx.camera.currentXclkHz {
      ctx.hw := CameraDeinit(ctx.hw);
      ctx.camera := ctx.camera.(inited := false);
      ctx.hw := Sleep(ctx.hw, INIT_RETRY_DELAY_MS);
      var _ := InitCameraWithXclk(ctx, next);
    }
  }

  /** `initCamera`: the clock ladder 20 MHz, 16.5 MHz, 10 MHz. */
  method InitCamera(ctx: FirmwareState) returns (ok: bool)
    modifies ctx
    ensures (ctx.Snap(), ok) == CameraSpec.InitCamera(old(ctx.Snap()))
  {
    ok := InitCameraWithXclk(ctx, XCLK_20MHZ);
    if ok {
      return;
    }
    ctx.hw := Sleep(ctx.hw, INIT_RETRY_DELAY_MS);
    ok := InitCameraWithXclk(ctx, XCLK_16_5MHZ);
    if ok {
      return;
    }
    ctx.hw := Sleep(ctx.hw, INIT_RETRY_DELAY_MS);
    ok := InitCameraWithXclk(ctx, XCLK_10MHZ);
  }

  /** `applyConfigIfNeeded`: bring the running camera in line with the targets. */
  method ApplyConfigIfNeeded(ctx: FirmwareState)
    modifies ctx
    ensures ctx.Snap() == ApplyConfig(old(ctx.Snap()))
  {
    if !ctx.camera.inited {
      return;
    }
    if ctx.camera.frameSizeTarget != ctx.camera.frameSize {
      ctx.hw := CameraDeinit(ctx.hw);
      ctx.camera := ctx.camera.(inited := false);
      ctx.camera := ctx.camera.(frameSize := ctx.camera.frameSizeTarget);
      ctx.camera := ctx.camera.(frameSizeKey := ctx.camera.frameSizeKeyTarget);
      ctx.camera := ctx.camera.(jpegQuality := ctx.camera.jpegQualityTarget);
      ctx.hw := Sleep(ctx.hw, RECONFIG_DELAY_MS);
      var ok := InitCamera(ctx);
      if !ok {
        return;
      }
    } else if ctx.camera.jpegQualityTarget != ctx.camera.jpegQuality {
      if ctx.hw.up {
        ctx.hw := ctx.hw.(regs := ctx.hw.regs.(quality := ctx.camera.jpegQualityTarget));
        ctx.camera := ctx.camera.(jpegQuality := ctx.camera.jpegQualityTarget);
      }
    }
    ApplyAdvancedParams(ctx);
    if !ctx.lowLight.boostEnabled {
      ResetLowLightState(ctx);
    } else {
      RefreshLowLightProfile(ctx);
    }
  }

  /**
   * The fallback loop of `safeGrab`: each smaller size in turn, stopping at the
   * first grab that succeeds; the sensor is put back to `wanted` either way.
   */
  method GrabFallback(ctx: FirmwareState, wanted: FrameSize) returns (hit: bool, fs: FrameSize)
    modifies ctx
    ensures var (d, h) := FallbackGrab(old(ctx.hw), wanted, 0);
      && hit == h.Some? && (hit ==> fs == h.value)
      && ctx.hw == d.(regs := d.regs.(frameSize := wanted))
    ensures ctx.camera == old(ctx.camera) && ctx.lowLight == old(ctx.lowLight)
    ensures ctx.network == old(ctx.network) && ctx.backend == old(ctx.backend)
    ensures ctx.upload == old(ctx.upload) && ctx.http == old(ctx.http) && ctx.prefs == old(ctx.prefs)
  {
    ghost var d0 := ctx.hw;
    for i := 0 to |FallbackSizes|
      invariant FallbackGrab(ctx.hw, wanted, i) == FallbackGrab(d0, wanted, 0)
      invariant ctx.camera == old(ctx.camera) && ctx.lowLight == old(ctx.lowLight)
      invariant ctx.network == old(ctx.network) && ctx.backend == old(ctx.backend)
      invariant ctx.upload == old(ctx.upload) && ctx.http == old(ctx.http) && ctx.prefs == old(ctx.prefs)
    {
      var size := FallbackSizes[i];
      if size >= wanted {
        continue;
      }
      ctx.hw := ctx.hw.(regs := ctx.hw.regs.(frameSize := size));
      var (d, got) := FbGet(ctx.hw);
      ctx.hw := d;
      if got {
        ctx.hw := ctx.hw.(regs := ctx.hw.regs.(frameSize := wanted));
        return true, size;
      }
    }
    ctx.hw := ctx.hw.(regs := ctx.hw.regs.(frameSize := wanted));
    return false, wanted;
  }

  /**
   * The grab attempts of `safeGrab`: the plain grab, and on failure (with the
   * streak counted) the fallback sizes.
   */
  method TryGrab(ctx: FirmwareState) returns (got: bool)
    modifies ctx
    ensures (ctx.Snap(), got) == GrabAttempts(old(ctx.Snap()))
  {
    var (d, ok) := FbGet(ctx.hw);
    ctx.hw := d;
    if ok {
      ctx.camera := ctx.camera.(failedGrabStreak := 0);
      ctx.camera := ctx.camera.(lastUsedFrameSizeKey := KeyFromFramesize(ctx.camera.frameSize));
      return true;
    }
    ctx.camera := ctx.camera.(failedGrabStreak := IncU8(ctx.camera.failedGrabStreak));
    if ctx.hw.up {
      var hit, fs := GrabFallback(ctx, ctx.camera.frameSize);
      if hit {
        ctx.camera := ctx.camera.(lastUsedFrameSizeKey := KeyFromFramesize(fs));
        ctx.camera := ctx.camera.(failedGrabStreak := 0);
        return true;
      }
    }
    return false;
  }

  /**
   * `safeGrab` at time `now`: whether a frame buffer was handed out, after the
   * grab attempts and, on a long enough failure streak, the debounced
   * step-down re-init.
   */
  method SafeGrab(ctx: FirmwareState, now: U32) returns (got: bool)
    modifies ctx
    ensures (ctx.Snap(), got) == CameraSpec.SafeGrab(old(ctx.Snap()), now)
  {
    got := TryGrab(ctx);
    if got {
      return;
    }
    if ctx.camera.failedGrabStreak >= GRAB_STREAK_REINIT
       && SubU32(now, ctx.camera.lastReinitMs) > REINIT_DEBOUNCE_MS {
      ctx.camera := ctx.camera.(lastReinitMs := now);
      MaybeReinitLowerXclk(ctx);
    }
  }
}
