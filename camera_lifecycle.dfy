/**
 * The camera's lifecycle properties, stated over `CameraSpec`: the clock
 * ladder, the one-rung step-down, reconciliation of target and active
 * configuration, the grab fallback, the debounced re-init, and the invariant
 * `Valid` kept by every routine.
 */
module CameraLifecycle {
  import opened EspCamera
  import opened AppContext
  import opened FrameSizes
  import opened CameraSpec
  import opened CameraLemmas
  import opened Wrappers

  // ---------------------------------------------------------------------------
  // Reference definitions

  /** The clock rungs `initCamera` tries, in order. */
  const Ladder: seq<int> := [XCLK_20MHZ, XCLK_16_5MHZ, XCLK_10MHZ]

  /** The driver calls of a ladder whose first success is at rung `j` (`j == 3`: none succeeds). */
  function LadderLog(fs: FrameSize, q: int, j: nat): seq<Event>
    requires j <= 3
  {
    if j == 0 then [Init(XCLK_20MHZ, fs, q, true)]
    else if j == 1 then
      [Init(XCLK_20MHZ, fs, q, false), Delay(INIT_RETRY_DELAY_MS), Init(XCLK_16_5MHZ, fs, q, true)]
    else
      [Init(XCLK_20MHZ, fs, q, false), Delay(INIT_RETRY_DELAY_MS), Init(XCLK_16_5MHZ, fs, q, false),
       Delay(INIT_RETRY_DELAY_MS), Init(XCLK_10MHZ, fs, q, j == 2)]
  }

  /** The fallback sizes from position `i` on that are strictly smaller than `wanted`, in order. */
  function Candidates(wanted: FrameSize, i: nat): seq<FrameSize>
    decreases |FallbackSizes| - i
  {
    if i >= |FallbackSizes| then []
    else (if FallbackSizes[i] < wanted then [FallbackSizes[i]] else []) + Candidates(wanted, i + 1)
  }

  /** Grabs at the given sizes, each failing except possibly the last. */
  function Attempts(sizes: seq<FrameSize>, lastOk: bool): seq<Event>
  {
    if sizes == [] then []
    else [FrameGet(sizes[0], |sizes| == 1 && lastOk)] + Attempts(sizes[1..], lastOk)
  }

  /** The driver's script after one call has drawn on it. */
  function Drawn(script: seq<bool>): seq<bool> {
    if script == [] then [] else script[1..]
  }

  // ---------------------------------------------------------------------------
  // Clock ladder

  /**
   * One init attempt at `xclk`: the clock is recorded whatever the outcome; on
   * failure the camera is marked down; on success the sensor is set to the
   * recorded frame size and quality and fully tuned. Nothing else changes.
   */
  lemma InitWithXclkSpec(c: Ctx, xclk: int)
    ensures
      var (r, ok) := InitWithXclk(c, xclk);
      && ok == (c.hw.initResults != [] && c.hw.initResults[0])
      && r.camera.inited == ok && r.hw.up == ok
      && r.camera.currentXclkHz == xclk
      && r.hw.log == c.hw.log + [Init(xclk, c.camera.frameSize, c.camera.jpegQuality, ok)]
      && r.hw.initResults == Drawn(c.hw.initResults)
      && r.hw.grabResults == c.hw.grabResults && r.hw.held == c.hw.held
      && r.hw.aec == c.hw.aec && r.hw.agc == c.hw.agc
      && r.camera.(inited := c.camera.inited, currentXclkHz := c.camera.currentXclkHz,
                   tuning := c.camera.tuning) == c.camera
      && r.(hw := c.hw, camera := c.camera) == c
      && (!ok ==> r.hw.regs == c.hw.regs && r.camera.tuning == c.camera.tuning)
      && (ok ==> SensorInSync(r))
  {
    var c1 := c.(camera := c.camera.(currentXclkHz := xclk));
    var (d, ok) := CameraInit(c1.hw, xclk, c1.camera.frameSize, c1.camera.jpegQuality);
    if ok {
      var d2 := d.(regs := d.regs.(frameSize := c1.camera.frameSize, quality := c1.camera.jpegQuality));
      var c2 := c1.(hw := d2, camera := c1.camera.(inited := true));
      AdvancedThenRefresh(c2);
      TunedRegsIdempotent(d2.regs, c.camera.target, Boosted(c.lowLight));
    }
  }

  /**
   * `initCamera` tries 20 MHz, 16.5 MHz and 10 MHz with a 200 ms pause between
   * rungs and stops at the first success; it succeeds iff one of the three
   * inits does, and when all fail the camera is left down at 10 MHz.
   */
  lemma InitCameraLadder(c: Ctx)
    ensures
      var (r, ok) := InitCamera(c);
      var j := FirstSuccess(c.hw.initResults, 3);
      && ok == (j < 3)
      && r.camera.inited == ok && r.hw.up == ok
      && r.camera.currentXclkHz == Ladder[if j < 3 then j else 2]
      && r.hw.log == c.hw.log + LadderLog(c.camera.frameSize, c.camera.jpegQuality, j)
      && r.camera.(inited := c.camera.inited, currentXclkHz := c.camera.currentXclkHz,
                   tuning := c.camera.tuning) == c.camera
      && r.lowLight == c.lowLight && r.hw.grabResults == c.hw.grabResults && r.hw.held == c.hw.held
      && (ok ==> SensorInSync(r))
      && (!ok ==> r.camera.tuning == c.camera.tuning)
  {
    var s := c.hw.initResults;
    var fs, q := c.camera.frameSize, c.camera.jpegQuality;
    InitWithXclkSpec(c, XCLK_20MHZ);
    if !InitWithXclk(c, XCLK_20MHZ).1 {
      var c1s := FailedRung(c, XCLK_20MHZ);
      InitWithXclkSpec(c1s, XCLK_16_5MHZ);
      if !InitWithXclk(c1s, XCLK_16_5MHZ).1 {
        var c2s := FailedRung(c1s, XCLK_16_5MHZ);
        InitWithXclkSpec(c2s, XCLK_10MHZ);
        var ok := InitWithXclk(c2s, XCLK_10MHZ).1;
        assert FirstSuccess(s, 3) == 2 + FirstSuccess(Drawn(Drawn(s)), 1);
        assert c2s.hw.log + [Init(XCLK_10MHZ, fs, q, ok)] == c.hw.log + LadderLog(fs, q, FirstSuccess(s, 3));
      } else {
        assert FirstSuccess(s, 3) == 1;
      }
    }
  }

  /**
   * A failed rung of the ladder followed by its 200 ms pause: the camera is
   * marked down at that clock and two driver calls are logged; nothing else
   * changes.
   */
  lemma FailedRung(c: Ctx, xclk: int) returns (r: Ctx)
    requires !InitWithXclk(c, xclk).1
    ensures r == InitWithXclk(c, xclk).0.(hw := Sleep(InitWithXclk(c, xclk).0.hw, INIT_RETRY_DELAY_MS))
    ensures r.camera == c.camera.(inited := false, currentXclkHz := xclk)
    ensures r.hw == c.hw.(up := false, initResults := Drawn(c.hw.initResults),
                          log := c.hw.log + [Init(xclk, c.camera.frameSize, c.camera.jpegQuality, false),
                                             Delay(INIT_RETRY_DELAY_MS)])
    ensures r.(hw := c.hw, camera := c.camera) == c
  {
    r := InitWithXclk(c, xclk).0.(hw := Sleep(InitWithXclk(c, xclk).0.hw, INIT_RETRY_DELAY_MS));
  }

  /**
   * `maybeReinitLowerXclk` never raises the clock: above 16.5 MHz it re-inits at
   * 16.5 MHz, above 10 MHz at 10 MHz, and at 10 MHz or below it does nothing.
   * A re-init tears the camera down, waits 200 ms and makes one attempt.
   */
  lemma ReinitLowerSpec(c: Ctx)
    ensures ReinitLower(c).camera.currentXclkHz == NextXclk(c.camera.currentXclkHz)
    ensures ReinitLower(c).camera.currentXclkHz <= c.camera.currentXclkHz
    ensures c.camera.currentXclkHz <= XCLK_10MHZ ==> ReinitLower(c) == c
    ensures c.camera.currentXclkHz > XCLK_10MHZ ==>
      var r := ReinitLower(c);
      var ok := c.hw.initResults != [] && c.hw.initResults[0];
      && r.hw.log == c.hw.log + [Deinit, Delay(INIT_RETRY_DELAY_MS),
                                 Init(NextXclk(c.camera.currentXclkHz), c.camera.frameSize, c.camera.jpegQuality, ok)]
      && r.camera.inited == ok && r.hw.up == ok
  {
    var next := NextXclk(c.camera.currentXclkHz);
    if next != c.camera.currentXclkHz {
      var c1 := c.(hw := Sleep(CameraDeinit(c.hw), INIT_RETRY_DELAY_MS), camera := c.camera.(inited := false));
      InitWithXclkSpec(c1, next);
    }
  }

  /** The three rungs: 20 MHz steps to 16.5 MHz, 16.5 MHz to 10 MHz, and 10 MHz stays. */
  lemma StepDownRungs()
    ensures NextXclk(Ladder[0]) == Ladder[1] && NextXclk(Ladder[1]) == Ladder[2]
    ensures NextXclk(Ladder[2]) == Ladder[2]
  {
  }

  // ---------------------------------------------------------------------------
  // Reconciliation

  /** Not initialised: `applyConfigIfNeeded` does nothing. */
  lemma ApplyConfigNotInited(c: Ctx)
    requires !c.camera.inited
    ensures ApplyConfig(c) == c
  {
  }

  /**
   * A frame-size mismatch: frame size, key and quality are overwritten with
   * their targets before the ladder runs; if every rung fails the routine
   * stops there, before the tuning pass.
   */
  lemma ApplyConfigReinit(c: Ctx)
    requires c.camera.inited && c.camera.frameSizeTarget != c.camera.frameSize
    ensures
      var r := ApplyConfig(c);
      var j := FirstSuccess(c.hw.initResults, 3);
      && r.camera.frameSize == c.camera.frameSizeTarget
      && r.camera.frameSizeKey == c.camera.frameSizeKeyTarget
      && r.camera.jpegQuality == c.camera.jpegQualityTarget
      && r.hw.log == c.hw.log + [Deinit, Delay(RECONFIG_DELAY_MS)]
                    + LadderLog(c.camera.frameSizeTarget, c.camera.jpegQualityTarget, j)
      && r.camera.inited == (j < 3)
      && (j == 3 ==> r.camera.tuning == c.camera.tuning && r.lowLight == c.lowLight)
  {
    var c1 := c.(hw := Sleep(CameraDeinit(c.hw), RECONFIG_DELAY_MS),
                 camera := c.camera.(inited := false,
                                     frameSize := c.camera.frameSizeTarget,
                                     frameSizeKey := c.camera.frameSizeKeyTarget,
                                     jpegQuality := c.camera.jpegQualityTarget));
    InitCameraLadder(c1);
    var (c2, ok) := InitCamera(c1);
    if ok {
      TuningPassSpec(c2);
    }
  }

  /** A quality-only mismatch on a valid initialised camera is written straight to the sensor. */
  lemma ApplyConfigQuality(c: Ctx)
    requires Valid(c) && c.camera.inited
    requires c.camera.frameSizeTarget == c.camera.frameSize
    requires c.camera.jpegQualityTarget != c.camera.jpegQuality
    ensures ApplyConfig(c).camera.jpegQuality == c.camera.jpegQualityTarget
    ensures ApplyConfig(c).hw.regs.quality == c.camera.jpegQualityTarget
    ensures ApplyConfig(c).hw.log == c.hw.log && ApplyConfig(c).camera.inited
  {
    var q := c.camera.jpegQualityTarget;
    var c1 := c.(hw := c.hw.(regs := c.hw.regs.(quality := q)), camera := c.camera.(jpegQuality := q));
    TuningPassSpec(c1);
  }

  /**
   * The tuning pass on an initialised camera: the registers end tuned to the
   * target under the profile the (possibly reset) low-light state calls for;
   * with boost disabled the low-light state is reset, otherwise untouched.
   */
  lemma TuningPassSpec(c: Ctx)
    requires c.camera.inited && c.hw.up
    ensures
      var r := TuningPass(c);
      && r.camera == c.camera.(tuning := ClampTuning(c.camera.target))
      && r.hw.regs == TunedRegs(c.hw.regs, c.camera.target, Boosted(r.lowLight))
      && r.hw.(regs := c.hw.regs) == c.hw
      && r.lowLight == (if c.lowLight.boostEnabled then c.lowLight
                        else c.lowLight.(score := 0, active := false))
      && r.(hw := c.hw, camera := c.camera, lowLight := c.lowLight) == c
  {
    var a := ApplyAdvanced(c);
    AdvancedThenRefresh(c);
    if !c.lowLight.boostEnabled {
      var a0 := a.(lowLight := a.lowLight.(score := 0, active := false));
      TunedRegsForget(a0.hw.regs, c.hw.regs, c.camera.target, false);
    } else {
      TunedRegsForget(a.hw.regs, c.hw.regs, c.camera.target, Boosted(c.lowLight));
    }
  }

  /**
   * Reconciliation establishes the invariant, even from a state whose targets
   * have changed since they were last applied, and never changes a target.
   */
  lemma ApplyConfigValid(c: Ctx)
    requires ValidUpToTuning(c)
    ensures Valid(ApplyConfig(c))
    ensures ApplyConfig(c).camera.target == c.camera.target
    ensures ApplyConfig(c).camera.frameSizeTarget == c.camera.frameSizeTarget
    ensures ApplyConfig(c).camera.frameSizeKeyTarget == c.camera.frameSizeKeyTarget
    ensures ApplyConfig(c).camera.jpegQualityTarget == c.camera.jpegQualityTarget
    ensures ApplyConfig(c).lowLight.boostEnabled == c.lowLight.boostEnabled
  {
    if c.camera.inited {
      if c.camera.frameSizeTarget != c.camera.frameSize {
        var c1 := c.(hw := Sleep(CameraDeinit(c.hw), RECONFIG_DELAY_MS),
                     camera := c.camera.(inited := false,
                                         frameSize := c.camera.frameSizeTarget,
                                         frameSizeKey := c.camera.frameSizeKeyTarget,
                                         jpegQuality := c.camera.jpegQualityTarget));
        InitCameraLadder(c1);
        var (c2, ok) := InitCamera(c1);
        if ok {
          TuningPassSpec(c2);
          TunedRegsIdempotent(c2.hw.regs, c.camera.target, Boosted(TuningPass(c2).lowLight));
        }
      } else {
        var q := c.camera.jpegQualityTarget;
        var c1 := if q != c.camera.jpegQuality
                  then c.(hw := c.hw.(regs := c.hw.regs.(quality := q)), camera := c.camera.(jpegQuality := q))
                  else c;
        TuningPassSpec(c1);
        TunedRegsIdempotent(c1.hw.regs, c.camera.target, Boosted(TuningPass(c1).lowLight));
      }
    }
  }

  /** A second tuning pass over an up sensor rewrites the registers it just wrote. */
  lemma TuningPassIdempotent(x: Ctx)
    requires x.camera.inited && x.hw.up
    ensures TuningPass(TuningPass(x)) == TuningPass(x)
  {
    TuningPassSpec(x);
    TuningPassSpec(TuningPass(x));
    TunedRegsIdempotent(x.hw.regs, x.camera.target, Boosted(TuningPass(x).lowLight));
  }

  /**
   * Reconciliation is idempotent: once the targets are applied, running it
   * again with no new target changes neither the sensor nor the context.
   */
  lemma ApplyConfigIdempotent(c: Ctx)
    requires ValidUpToTuning(c)
    ensures ApplyConfig(ApplyConfig(c)) == ApplyConfig(c)
  {
    ApplyConfigValid(c);
    if c.camera.inited {
      if c.camera.frameSizeTarget != c.camera.frameSize {
        var c1 := c.(hw := Sleep(CameraDeinit(c.hw), RECONFIG_DELAY_MS),
                     camera := c.camera.(inited := false,
                                         frameSize := c.camera.frameSizeTarget,
                                         frameSizeKey := c.camera.frameSizeKeyTarget,
                                         jpegQuality := c.camera.jpegQualityTarget));
        InitCameraLadder(c1);
        var (c2, ok) := InitCamera(c1);
        if ok {
          TuningPassSpec(c2);
          TuningPassIdempotent(c2);
        }
      } else {
        var q := c.camera.jpegQualityTarget;
        var c1 := if q != c.camera.jpegQuality
                  then c.(hw := c.hw.(regs := c.hw.regs.(quality := q)), camera := c.camera.(jpegQuality := q))
                  else c;
        TuningPassSpec(c1);
        TuningPassIdempotent(c1);
      }
    }
  }

  // ---------------------------------------------------------------------------
  // Resilient grab

  /**
   * The candidates are exactly the fallback sizes below the wanted one, in
   * the fallback's (decreasing) order: every larger preset tries all three,
   * SVGA tries VGA and QVGA, VGA only QVGA, and QVGA or smaller none.
   */
  lemma CandidatesOf(wanted: FrameSize)
    ensures wanted > FRAMESIZE_SVGA ==> Candidates(wanted, 0) == [FRAMESIZE_SVGA, FRAMESIZE_VGA, FRAMESIZE_QVGA]
    ensures wanted == FRAMESIZE_SVGA ==> Candidates(wanted, 0) == [FRAMESIZE_VGA, FRAMESIZE_QVGA]
    ensures FRAMESIZE_QVGA < wanted <= FRAMESIZE_VGA ==> Candidates(wanted, 0) == [FRAMESIZE_QVGA]
    ensures wanted <= FRAMESIZE_QVGA ==> Candidates(wanted, 0) == []
    ensures forall k | 0 <= k < |Candidates(wanted, 0)| :: Candidates(wanted, 0)[k] < wanted
    ensures forall k | 0 < k < |Candidates(wanted, 0)| ::
      Candidates(wanted, 0)[k] < Candidates(wanted, 0)[k - 1]
  {
    assert Candidates(wanted, 3) == [];
  }

  /** A failed call draws one entry from the script, so the first success moves one place on. */
  lemma FirstSuccessAfterFailure(g: seq<bool>, n: nat)
    requires n >= 1 && !(g != [] && g[0])
    ensures FirstSuccess(g, n) == 1 + FirstSuccess(Drawn(g), n - 1)
  {
  }

  /** Grabs at `fs` then at the first `k` of `rest`: the first grab fails unless it is the only one. */
  lemma AttemptsCons(fs: FrameSize, rest: seq<FrameSize>, k: nat, ok: bool)
    requires k <= |rest| && (k >= 1 || !ok)
    ensures Attempts(([fs] + rest)[..k + 1], ok) == [FrameGet(fs, false)] + Attempts(rest[..k], ok)
  {
    assert ([fs] + rest)[..k + 1] == [fs] + rest[..k];
    assert ([fs] + rest[..k])[1..] == rest[..k];
  }

  /** A failed grab at candidate `i` hands the rest of the loop a driver that has logged it and drawn on its script. */
  lemma FallbackFailedStep(d: Driver, wanted: FrameSize, i: nat)
    requires d.up && i < |FallbackSizes| && FallbackSizes[i] < wanted
    requires !FbGet(d.(regs := d.regs.(frameSize := FallbackSizes[i]))).1
    ensures
      var d1 := FbGet(d.(regs := d.regs.(frameSize := FallbackSizes[i]))).0;
      && FallbackGrab(d, wanted, i) == FallbackGrab(d1, wanted, i + 1)
      && d1.log == d.log + [FrameGet(FallbackSizes[i], false)]
      && d1.grabResults == Drawn(d.grabResults)
      && d1.(log := d.log, grabResults := d.grabResults, regs := d.regs) == d
      && !(d.grabResults != [] && d.grabResults[0])
  {
  }

  /**
   * Grabbing from log `log0` at the candidates `cands` in order, with driver
   * script `g`, until the first success: `hit` is the candidate that
   * succeeded, if any, and `rlog` the resulting log.
   */
  predicate LoggedFrom(log0: seq<Event>, cands: seq<FrameSize>, g: seq<bool>,
                       hit: Option<FrameSize>, rlog: seq<Event>)
  {
    var j := FirstSuccess(g, |cands|);
    && hit.Some? == (j < |cands|)
    && (hit.Some? ==> hit.value == cands[j])
    && rlog == log0 + Attempts(cands[..if hit.Some? then j + 1 else |cands|], hit.Some?)
  }

  /** A failed grab in front of a run of grabs is a run of grabs over one more candidate. */
  lemma LoggedFromCons(log0: seq<Event>, fs: FrameSize, rest: seq<FrameSize>, g: seq<bool>,
                       hit: Option<FrameSize>, rlog: seq<Event>)
    requires !(g != [] && g[0])
    requires LoggedFrom(log0 + [FrameGet(fs, false)], rest, Drawn(g), hit, rlog)
    ensures LoggedFrom(log0, [fs] + rest, g, hit, rlog)
  {
    var j1 := FirstSuccess(Drawn(g), |rest|);
    FirstSuccessAfterFailure(g, 1 + |rest|);
    if hit.Some? {
      ConsLog(log0, fs, rest, j1 + 1, true, rlog);
      assert ([fs] + rest)[1 + j1] == rest[j1];
    } else {
      ConsLog(log0, fs, rest, |rest|, false, rlog);
    }
  }

  /** The log half of `LoggedFromCons`. */
  lemma ConsLog(log0: seq<Event>, fs: FrameSize, rest: seq<FrameSize>, k: nat, ok: bool, rlog: seq<Event>)
    requires k <= |rest| && (k >= 1 || !ok)
    requires rlog == log0 + [FrameGet(fs, false)] + Attempts(rest[..k], ok)
    ensures rlog == log0 + Attempts(([fs] + rest)[..k + 1], ok)
  {
    AttemptsCons(fs, rest, k, ok);
    assert rlog == log0 + ([FrameGet(fs, false)] + Attempts(rest[..k], ok));
  }

  /** The fallback loop from position `i`, in the terms of `LoggedFrom`. */
  predicate FallbackLogged(d: Driver, wanted: FrameSize, i: nat) {
    LoggedFrom(d.log, Candidates(wanted, i), d.grabResults,
               FallbackGrab(d, wanted, i).1, FallbackGrab(d, wanted, i).0.log)
  }

  /** The loop step past a candidate that is not smaller than the wanted size. */
  lemma FallbackLoggedSkip(d: Driver, wanted: FrameSize, i: nat)
    requires i < |FallbackSizes| && FallbackSizes[i] >= wanted
    requires FallbackLogged(d, wanted, i + 1)
    ensures FallbackLogged(d, wanted, i)
  {
    assert Candidates(wanted, i) == Candidates(wanted, i + 1);
    assert FallbackGrab(d, wanted, i) == FallbackGrab(d, wanted, i + 1);
  }

  /** The loop step at a candidate whose grab succeeds. */
  lemma FallbackLoggedHit(d: Driver, wanted: FrameSize, i: nat)
    requires d.up && i < |FallbackSizes| && FallbackSizes[i] < wanted
    requires FbGet(d.(regs := d.regs.(frameSize := FallbackSizes[i]))).1
    ensures FallbackLogged(d, wanted, i)
  {
    var fs := FallbackSizes[i];
    var rest := Candidates(wanted, i + 1);
    assert Candidates(wanted, i) == [fs] + rest;
    assert FirstSuccess(d.grabResults, 1 + |rest|) == 0;
    assert ([fs] + rest)[..1] == [fs];
  }

  /** The loop step at a candidate whose grab fails. */
  lemma FallbackLoggedMiss(d: Driver, wanted: FrameSize, i: nat)
    requires d.up && i < |FallbackSizes| && FallbackSizes[i] < wanted
    requires !FbGet(d.(regs := d.regs.(frameSize := FallbackSizes[i]))).1
    requires FallbackLogged(FbGet(d.(regs := d.regs.(frameSize := FallbackSizes[i]))).0, wanted, i + 1)
    ensures FallbackLogged(d, wanted, i)
  {
    var fs := FallbackSizes[i];
    var rest := Candidates(wanted, i + 1);
    assert Candidates(wanted, i) == [fs] + rest;
    var d1 := FbGet(d.(regs := d.regs.(frameSize := fs))).0;
    FallbackFailedStep(d, wanted, i);
    var res := FallbackGrab(d1, wanted, i + 1);
    LoggedFromCons(d.log, fs, rest, d.grabResults, res.1, res.0.log);
  }

  /** The fallback loop's log and result, by induction over the loop position. */
  lemma {:induction false} FallbackLog(d: Driver, wanted: FrameSize, i: nat)
    requires d.up
    decreases |FallbackSizes| - i
    ensures FallbackLogged(d, wanted, i)
  {
    if i >= |FallbackSizes| {
    } else if FallbackSizes[i] >= wanted {
      FallbackLog(d, wanted, i + 1);
      FallbackLoggedSkip(d, wanted, i);
    } else {
      var got := FbGet(d.(regs := d.regs.(frameSize := FallbackSizes[i])));
      if got.1 {
        FallbackLoggedHit(d, wanted, i);
      } else {
        FallbackLog(got.0, wanted, i + 1);
        FallbackLoggedMiss(d, wanted, i);
      }
    }
  }

  /**
   * What the fallback loop leaves in the driver: on a hit one more frame is
   * handed out and the sensor is back at `wanted`; on a miss only the sensor's
   * frame size may differ. The camera stays up and nothing else but the log and
   * the grab script changes.
   */
  lemma {:induction false} FallbackState(d: Driver, wanted: FrameSize, i: nat)
    requires d.up
    decreases |FallbackSizes| - i
    ensures
      var (r, hit) := FallbackGrab(d, wanted, i);
      && r.(log := d.log, grabResults := d.grabResults, regs := d.regs, held := d.held) == d
      && (hit.Some? ==> r.regs == d.regs.(frameSize := wanted) && r.held == d.held + 1)
      && (hit.None? ==> r.regs.(frameSize := wanted) == d.regs.(frameSize := wanted) && r.held == d.held)
  {
    if i >= |FallbackSizes| {
    } else if FallbackSizes[i] >= wanted {
      FallbackState(d, wanted, i + 1);
    } else {
      var got := FbGet(d.(regs := d.regs.(frameSize := FallbackSizes[i])));
      if !got.1 {
        FallbackFailedStep(d, wanted, i);
        FallbackState(got.0, wanted, i + 1);
      }
    }
  }

  /**
   * The grab attempts of `safeGrab` on a camera that is up, with the sensor at
   * the recorded frame size: a plain grab first; if it fails, the streak goes
   * up by one (wrapping at 256) and the smaller candidates are tried in order.
   * The sensor ends at the recorded frame size, and on success the key of the
   * size actually used is recorded and the streak cleared.
   */
  lemma GrabAttemptsSpec(c: Ctx)
    requires c.hw.up && c.hw.regs.frameSize == c.camera.frameSize
    ensures
      var (r, ok) := GrabAttempts(c);
      var g := c.hw.grabResults;
      var cands := Candidates(c.camera.frameSize, 0);
      var j := FirstSuccess(Drawn(g), |cands|);
      && r.hw.regs == c.hw.regs
      && r.camera.(failedGrabStreak := c.camera.failedGrabStreak,
                   lastUsedFrameSizeKey := c.camera.lastUsedFrameSizeKey) == c.camera
      && r.hw.up && r.hw.initResults == c.hw.initResults
      && r.(hw := c.hw, camera := c.camera) == c
      && r.hw.held == (if ok then c.hw.held + 1 else c.hw.held)
      && (g != [] && g[0] ==>
            && ok && r.camera.failedGrabStreak == 0
            && r.camera.lastUsedFrameSizeKey == KeyFromFramesize(c.camera.frameSize)
            && r.hw.log == c.hw.log + [FrameGet(c.camera.frameSize, true)])
      && (!(g != [] && g[0]) ==>
            && ok == (j < |cands|)
            && r.hw.log == c.hw.log + [FrameGet(c.camera.frameSize, false)]
                          + Attempts(cands[..if ok then j + 1 else |cands|], ok)
            && (ok ==> r.camera.failedGrabStreak == 0
                       && r.camera.lastUsedFrameSizeKey == KeyFromFramesize(cands[j]))
            && (!ok ==> r.camera.failedGrabStreak == IncU8(c.camera.failedGrabStreak)
                        && r.camera.lastUsedFrameSizeKey == c.camera.lastUsedFrameSizeKey))
  {
    var (d, ok) := FbGet(c.hw);
    if !ok {
      FallbackLog(d, c.camera.frameSize, 0);
      FallbackState(d, c.camera.frameSize, 0);
    }
  }

  /** The grab attempts never touch the re-init time, the frame size, its target or the clock. */
  lemma GrabAttemptsKeeps(c: Ctx)
    ensures GrabAttempts(c).0.camera.lastReinitMs == c.camera.lastReinitMs
    ensures GrabAttempts(c).0.camera.frameSize == c.camera.frameSize
    ensures GrabAttempts(c).0.camera.frameSizeTarget == c.camera.frameSizeTarget
    ensures GrabAttempts(c).0.camera.currentXclkHz == c.camera.currentXclkHz
  {
  }

  /** Whether `safeGrab` at time `now` ends in the step-down re-init. */
  predicate ReinitFires(c: Ctx, now: U32) {
    var (c1, ok) := GrabAttempts(c);
    !ok && ReinitDue(c1, now)
  }

  /**
   * The re-init in `safeGrab` fires only after a failed grab with a streak of
   * at least 3 and more than 7000 ms (modulo 2^32) since the last re-init, and
   * it records `now` as the new re-init time; otherwise that time is kept.
   * The frame size and its target are never changed.
   */
  lemma SafeGrabReinit(c: Ctx, now: U32)
    ensures
      var (r, frame) := SafeGrab(c, now);
      && r.camera.lastReinitMs == (if ReinitFires(c, now) then now else c.camera.lastReinitMs)
      && (ReinitFires(c, now) ==> !frame && SubU32(now, c.camera.lastReinitMs) > REINIT_DEBOUNCE_MS
                                   && r.camera.failedGrabStreak >= GRAB_STREAK_REINIT)
      && (!ReinitFires(c, now) ==> (r, frame) == GrabAttempts(c))
      && r.camera.frameSize == c.camera.frameSize
      && r.camera.frameSizeTarget == c.camera.frameSizeTarget
  {
    GrabAttemptsKeeps(c);
    var (c1, ok) := GrabAttempts(c);
    if !ok && ReinitDue(c1, now) {
      ReinitLowerSpec(c1.(camera := c1.camera.(lastReinitMs := now)));
      var c2 := c1.(camera := c1.camera.(lastReinitMs := now));
      var next := NextXclk(c2.camera.currentXclkHz);
      if next != c2.camera.currentXclkHz {
        var c3 := c2.(hw := Sleep(CameraDeinit(c2.hw), INIT_RETRY_DELAY_MS), camera := c2.camera.(inited := false));
        InitWithXclkSpec(c3, next);
      }
    }
  }

  /** `safeGrab` on a valid, initialised camera leaves the sensor at the wanted frame size on every path. */
  lemma SafeGrabRestoresFrameSize(c: Ctx, now: U32)
    requires Valid(c) && c.camera.inited
    ensures SafeGrab(c, now).0.hw.regs.frameSize == c.camera.frameSize
  {
    GrabAttemptsSpec(c);
    var (c1, ok) := GrabAttempts(c);
    if !ok && ReinitDue(c1, now) {
      var c2 := c1.(camera := c1.camera.(lastReinitMs := now));
      var next := NextXclk(c2.camera.currentXclkHz);
      if next != c2.camera.currentXclkHz {
        var c3 := c2.(hw := Sleep(CameraDeinit(c2.hw), INIT_RETRY_DELAY_MS), camera := c2.camera.(inited := false));
        InitWithXclkSpec(c3, next);
      }
    }
  }

  /** The context after `safeGrab` at each of the times in `nows`, in order. */
  function GrabRun(c: Ctx, nows: seq<U32>): Ctx
    decreases |nows|
  {
    if nows == [] then c else GrabRun(SafeGrab(c, nows[0]).0, nows[1..])
  }

  /** The times at which that run of grabs fired the step-down re-init. */
  function ReinitTimes(c: Ctx, nows: seq<U32>): seq<U32>
    decreases |nows|
  {
    if nows == [] then []
    else (if ReinitFires(c, nows[0]) then [nows[0]] else []) + ReinitTimes(SafeGrab(c, nows[0]).0, nows[1..])
  }

  /**
   * However often `safeGrab` is called, consecutive step-down re-inits are
   * more than 7000 ms apart (modulo 2^32), and so is the first from the last
   * re-init before the run.
   */
  lemma {:induction false} ReinitsSpaced(c: Ctx, nows: seq<U32>)
    decreases |nows|
    ensures
      var ts := ReinitTimes(c, nows);
      && (ts != [] ==> SubU32(ts[0], c.camera.lastReinitMs) > REINIT_DEBOUNCE_MS)
      && (forall k | 0 < k < |ts| :: SubU32(ts[k], ts[k - 1]) > REINIT_DEBOUNCE_MS)
  {
    if nows != [] {
      var c1 := SafeGrab(c, nows[0]).0;
      SafeGrabReinit(c, nows[0]);
      ReinitsSpaced(c1, nows[1..]);
      var rest := ReinitTimes(c1, nows[1..]);
      if ReinitFires(c, nows[0]) {
        var ts := [nows[0]] + rest;
        assert ReinitTimes(c, nows) == ts;
        forall k | 0 < k < |ts|
          ensures SubU32(ts[k], ts[k - 1]) > REINIT_DEBOUNCE_MS
        {
          if k == 1 {
            assert ts[1] == rest[0];
          } else {
            assert ts[k] == rest[k - 1] && ts[k - 1] == rest[k - 2];
          }
        }
      }
    }
  }

  // ---------------------------------------------------------------------------
  // The invariant

  lemma RefreshValid(c: Ctx)
    requires Valid(c)
    ensures Valid(Refresh(c))
  {
    if c.camera.inited {
      TunedRegsIdempotent(c.hw.regs, c.camera.target, Boosted(c.lowLight));
    }
  }

  lemma ResetValid(c: Ctx)
    requires Valid(c)
    ensures Valid(Reset(c))
  {
    if c.camera.inited {
      TunedRegsIdempotent(c.hw.regs, c.camera.target, false);
    }
  }

  lemma EvaluateValid(c: Ctx, now: U32)
    requires Valid(c)
    ensures Valid(Evaluate(c, now))
  {
    if c.lowLight.boostEnabled && c.camera.inited && c.hw.up {
      ObserveSpec(c, c.hw.aec, c.hw.agc, now);
      var r := Evaluate(c, now);
      TunedRegsIdempotent(c.hw.regs, c.camera.target, r.lowLight.active);
    }
  }

  lemma InitCameraValid(c: Ctx)
    requires LowLightValid(c.lowLight)
    ensures Valid(InitCamera(c).0)
  {
    InitCameraLadder(c);
  }

  lemma ReinitLowerValid(c: Ctx)
    requires Valid(c)
    ensures Valid(ReinitLower(c))
  {
    var next := NextXclk(c.camera.currentXclkHz);
    if next != c.camera.currentXclkHz {
      var c1 := c.(hw := Sleep(CameraDeinit(c.hw), INIT_RETRY_DELAY_MS), camera := c.camera.(inited := false));
      InitWithXclkSpec(c1, next);
    }
  }

  lemma SafeGrabValid(c: Ctx, now: U32)
    requires Valid(c)
    ensures Valid(SafeGrab(c, now).0)
  {
    var (c1, ok) := GrabAttempts(c);
    if c.hw.up {
      GrabAttemptsSpec(c);
      TunedRegsForget(c1.hw.regs, c.hw.regs, c.camera.target, Boosted(c.lowLight));
      TunedRegsIdempotent(c.hw.regs, c.camera.target, Boosted(c.lowLight));
      assert Valid(c1);
    } else {
      assert Valid(c1);
    }
    if !ok && ReinitDue(c1, now) {
      ReinitLowerValid(c1.(camera := c1.camera.(lastReinitMs := now)));
    }
  }
}
