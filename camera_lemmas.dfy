/**
 * What the camera controller promises, stated and proved over `CameraSpec`:
 * the clamp, the two register passes, the hysteresis of the low-light
 * controller, the clock ladder, reconciliation, the grab fallback and the
 * re-init debounce, and the invariant `Valid` that every routine keeps.
 */
module CameraLemmas {
  import opened EspCamera
  import opened AppContext
  import opened FrameSizes
  import opened CameraSpec

  // ---------------------------------------------------------------------------
  // Defaults

  /** The power-on tuning already lies in every range, so clamping it changes nothing. */
  lemma DefaultTuningInRange()
    ensures TuningInRange(DefaultTuning)
    ensures ClampTuning(DefaultTuning) == DefaultTuning
  {
  }

  /** The power-on camera state: targets equal actuals, not initialised, top clock, no streak. */
  lemma DefaultCameraState()
    ensures DefaultCamera.frameSize == DefaultCamera.frameSizeTarget == FRAMESIZE_VGA
    ensures DefaultCamera.frameSizeKey == DefaultCamera.frameSizeKeyTarget == "VGA"
    ensures KeyFromFramesize(DefaultCamera.frameSize) == DefaultCamera.frameSizeKey
    ensures DefaultCamera.jpegQuality == DefaultCamera.jpegQualityTarget == 12
    ensures !DefaultCamera.inited && DefaultCamera.currentXclkHz == XCLK_20MHZ
    ensures DefaultCamera.failedGrabStreak == 0 && DefaultCamera.lastReinitMs == 0
    ensures DefaultCamera.tuning == DefaultCamera.target == DefaultTuning
  {
    KeyAndLabelOfRow(3);
  }

  /** Power-on with the camera down satisfies the controller's invariant. */
  lemma InitialValid(prefs: Prefs, hw: Driver)
    requires !hw.up
    ensures Valid(Initial(prefs, hw))
    ensures LowLightValid(DefaultLowLight) && DefaultLowLight.boostEnabled && !DefaultLowLight.active
  {
  }

  // ---------------------------------------------------------------------------
  // The tuning clamp and the two register passes

  /** Clamping puts every numeric field in range and copies the switches. */
  lemma ClampTuningInRange(t: SensorTuning)
    ensures TuningInRange(ClampTuning(t)) && SameSwitches(ClampTuning(t), t)
    ensures ClampTuning(t).gainceilingIndex == if t.gainceilingIndex > 5 then 5 else t.gainceilingIndex
  {
  }

  /** A snapshot already in range is its own clamp. */
  lemma ClampTuningKeeps(t: SensorTuning)
    requires TuningInRange(t)
    ensures ClampTuning(t) == t
  {
    var a := ClampTuning(t);
    assert a.wbMode == t.wbMode && a.brightness == t.brightness && a.contrast == t.contrast;
    assert a.saturation == t.saturation && a.sharpness == t.sharpness;
    assert a.aeLevel == t.aeLevel && a.specialEffect == t.specialEffect;
  }

  /**
   * The active snapshot is the target with every numeric field clamped into
   * its range and every switch copied; a target already in range is kept, so
   * clamping is idempotent.
   */
  lemma ClampTuningSpec(t: SensorTuning)
    ensures TuningInRange(ClampTuning(t)) && SameSwitches(ClampTuning(t), t)
    ensures TuningInRange(t) ==> ClampTuning(t) == t
    ensures ClampTuning(ClampTuning(t)) == ClampTuning(t)
  {
    ClampTuningInRange(t);
    ClampTuningKeeps(ClampTuning(t));
    if TuningInRange(t) {
      ClampTuningKeeps(t);
    }
  }

  /**
   * `applyManualSensorParams` with a sensor: the active snapshot becomes the
   * clamped target, the registers then hold exactly that snapshot, the target
   * is untouched, and frame size, quality and aec2 are not written.
   * Without a sensor nothing changes.
   */
  lemma ApplyManualSpec(c: Ctx)
    ensures !c.hw.up ==> ApplyManual(c) == c
    ensures c.hw.up ==>
      var r := ApplyManual(c);
      && r.camera == c.camera.(tuning := ClampTuning(c.camera.target))
      && Encode(r.hw.regs, r.camera.tuning) == r.hw.regs
      && r.hw.regs.frameSize == c.hw.regs.frameSize && r.hw.regs.quality == c.hw.regs.quality
      && r.hw.regs.aec2 == c.hw.regs.aec2
      && r.hw.(regs := c.hw.regs) == c.hw
      && r.(hw := c.hw, camera := c.camera) == c
  {
  }

  /** The manual gain-ceiling write uses the clamped index, so it never exceeds 64X. */
  lemma ManualGainceiling(r: SensorRegs, t: SensorTuning)
    ensures Encode(r, ClampTuning(t)).gainceiling
      == (if t.gainceilingIndex > 5 then GAINCEILING_64X else t.gainceilingIndex)
  {
  }

  /**
   * The inactive profile only clears aec2. The boosted profile forces gain,
   * white-balance gain and exposure control on, a 32X gain ceiling (below the
   * 64X maximum), aec2 on, an exposure level of the target's clamped to
   * [0, 2], and dcw, bpc and wpc on; every other register is left alone.
   */
  lemma ProfileSpec(r: SensorRegs, on: bool, t: SensorTuning)
    ensures !on ==> ProfileRegs(r, on, t) == r.(aec2 := 0)
    ensures on ==>
      var p := ProfileRegs(r, on, t);
      && p.gainCtrl == 1 && p.awbGain == 1 && p.exposureCtrl == 1
      && p.gainceiling == GAINCEILING_32X && p.gainceiling < GAINCEILING_64X
      && p.aec2 == 1 && 0 <= p.aeLevel <= 2 && p.aeLevel == Constrain(t.aeLevel, 0, 2)
      && p.dcw == 1 && p.bpc == 1 && p.wpc == 1
      && p.lenc == r.lenc && p.rawGma == r.rawGma && p.whitebal == r.whitebal
      && p.wbMode == r.wbMode && p.hmirror == r.hmirror && p.vflip == r.vflip
      && p.brightness == r.brightness && p.contrast == r.contrast
      && p.saturation == r.saturation && p.sharpness == r.sharpness
      && p.colorbar == r.colorbar && p.specialEffect == r.specialEffect
      && p.frameSize == r.frameSize && p.quality == r.quality
  {
  }

  /** A refresh overwrites every register it touches, so refreshing twice is refreshing once. */
  lemma TunedRegsIdempotent(r: SensorRegs, t: SensorTuning, on: bool)
    ensures TunedRegs(TunedRegs(r, t, on), t, on) == TunedRegs(r, t, on)
    ensures TunedRegs(r, t, on).frameSize == r.frameSize && TunedRegs(r, t, on).quality == r.quality
  {
  }

  /** The registers after a refresh depend only on the target and the profile, not on what was there. */
  lemma TunedRegsForget(r: SensorRegs, r2: SensorRegs, t: SensorTuning, on: bool)
    requires r.frameSize == r2.frameSize && r.quality == r2.quality
    ensures TunedRegs(r, t, on) == TunedRegs(r2, t, on)
  {
  }

  /**
   * A refresh on an initialised camera leaves the registers tuned to the
   * target and the current profile, records the clamped target as active,
   * and touches nothing else.
   */
  lemma RefreshSpec(c: Ctx)
    ensures !(c.camera.inited && c.hw.up) ==> Refresh(c) == c
    ensures c.camera.inited && c.hw.up ==>
      var r := Refresh(c);
      && r.hw.regs == TunedRegs(c.hw.regs, c.camera.target, Boosted(c.lowLight))
      && r.camera == c.camera.(tuning := ClampTuning(c.camera.target))
      && r.hw.(regs := c.hw.regs) == c.hw
      && r.lowLight == c.lowLight && r.(hw := c.hw, camera := c.camera) == c
  {
  }

  /** Reset clears the score and the active flag whatever the camera's state, and refreshes. */
  lemma ResetSpec(c: Ctx)
    ensures Reset(c).lowLight == c.lowLight.(score := 0, active := false)
    ensures LowLightValid(Reset(c).lowLight)
    ensures c.camera.inited && c.hw.up ==>
      Reset(c).hw.regs == TunedRegs(c.hw.regs, c.camera.target, false)
  {
  }

  /** After the advanced pass and a refresh, only the refresh's profile is visible in the registers. */
  lemma AdvancedThenRefresh(c: Ctx)
    requires c.camera.inited && c.hw.up
    ensures Refresh(ApplyAdvanced(c)).hw.regs == TunedRegs(c.hw.regs, c.camera.target, Boosted(c.lowLight))
    ensures Refresh(ApplyAdvanced(c)).camera == c.camera.(tuning := ClampTuning(c.camera.target))
    ensures Refresh(ApplyAdvanced(c)).(hw := c.hw, camera := c.camera) == c
    ensures Refresh(ApplyAdvanced(c)).hw.(regs := c.hw.regs) == c.hw
  {
    var a := ApplyAdvanced(c);
    TunedRegsForget(a.hw.regs, c.hw.regs, c.camera.target, Boosted(c.lowLight));
  }

  // ---------------------------------------------------------------------------
  // Low-light hysteresis

  /** With boost disabled the observer does nothing at all. */
  lemma ObserveDisabled(c: Ctx, aec: U16, gain: U8, now: U32)
    requires !c.lowLight.boostEnabled
    ensures Observe(c, aec, gain, now) == c
  {
  }

  /**
   * One enabled observer step: the score moves by at most one and stays in
   * [0, 6]; afterwards `active` is exactly `score >= 3`; the camera and
   * sensor are touched, and the transition time recorded, only when `active`
   * flips, in which case the registers get the profile the new flag calls for.
   */
  lemma ObserveSpec(c: Ctx, aec: U16, gain: U8, now: U32)
    requires c.lowLight.boostEnabled && LowLightValid(c.lowLight)
    ensures
      var r := Observe(c, aec, gain, now);
      && r.lowLight.score == ScoreStep(c.lowLight.score, aec, gain)
      && -1 <= r.lowLight.score - c.lowLight.score <= 1
      && LowLightValid(r.lowLight)
      && r.lowLight.boostEnabled
      && r.camera.target == c.camera.target
      && (r.lowLight.active == c.lowLight.active ==>
            r.hw == c.hw && r.camera == c.camera && r.lowLight.lastLogMs == c.lowLight.lastLogMs)
      && (r.lowLight.active != c.lowLight.active ==>
            && r.lowLight.lastLogMs == now
            && (c.camera.inited && c.hw.up ==>
                  r.hw.regs == TunedRegs(c.hw.regs, c.camera.target, r.lowLight.active)))
  {
  }

  /** Three consecutive dark samples (aec 900) from a cleared state enable the boost exactly on the third. */
  lemma ThreeDarkSamplesActivate(c: Ctx, t1: U32, t2: U32, t3: U32)
    requires c.lowLight.boostEnabled && c.lowLight.score == 0 && LowLightValid(c.lowLight)
    ensures
      var c1 := Observe(c, 900, 0, t1);
      var c2 := Observe(c1, 900, 0, t2);
      var c3 := Observe(c2, 900, 0, t3);
      !c1.lowLight.active && !c2.lowLight.active && c3.lowLight.active
  {
    var c1 := Observe(c, 900, 0, t1);
    ObserveSpec(c, 900, 0, t1);
    var c2 := Observe(c1, 900, 0, t2);
    ObserveSpec(c1, 900, 0, t2);
    ObserveSpec(c2, 900, 0, t3);
  }

  /**
   * `n` further samples in the same zone from a valid low-light state: the
   * state reached by repeating the observer step on one reading.
   */
  function Repeat(c: Ctx, aec: U16, gain: U8, now: U32, n: nat): Ctx
    decreases n
  {
    if n == 0 then c else Repeat(Observe(c, aec, gain, now), aec, gain, now, n - 1)
  }

  /**
   * Hysteresis from saturation: at the maximum score, four samples without a
   * boost request (bright or ambiguous alike) are needed to switch the boost
   * off; the first three leave it on.
   */
  lemma SaturatedNeedsFourToRelease(c: Ctx, aec: U16, gain: U8, now: U32)
    requires c.lowLight.boostEnabled && c.lowLight.score == LOW_LIGHT_SCORE_MAX
    requires LowLightValid(c.lowLight) && !RequestBoost(aec, gain)
    ensures Repeat(c, aec, gain, now, 3).lowLight.active
    ensures !Repeat(c, aec, gain, now, 4).lowLight.active
  {
    var c1 := Observe(c, aec, gain, now);
    ObserveSpec(c, aec, gain, now);
    var c2 := Observe(c1, aec, gain, now);
    ObserveSpec(c1, aec, gain, now);
    var c3 := Observe(c2, aec, gain, now);
    ObserveSpec(c2, aec, gain, now);
    ObserveSpec(c3, aec, gain, now);
    assert Repeat(c3, aec, gain, now, 1) == Observe(c3, aec, gain, now);
    assert Repeat(c2, aec, gain, now, 2) == Repeat(c3, aec, gain, now, 1);
  }

  /** Evaluation reads the sensor's own status registers, and only on an initialised camera with boost on. */
  lemma EvaluateSpec(c: Ctx, now: U32)
    ensures !c.lowLight.boostEnabled || !c.camera.inited || !c.hw.up ==> Evaluate(c, now) == c
    ensures c.lowLight.boostEnabled && c.camera.inited && c.hw.up ==>
      Evaluate(c, now) == Observe(c, c.hw.aec, c.hw.agc, now)
  {
  }
}
