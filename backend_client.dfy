/**
 * The firmware's backend client: URL joining, the hand-rolled JSON field
 * scanners, applying a configuration body from the backend to the targets
 * (then reconciling the camera and persisting), and the capture-and-upload
 * step with its frame-buffer discipline. HTTP itself is not modelled: the
 * outcome of each request (whether the client could be started, the status
 * code, the body) is a parameter, and so is whether WiFi is connected.
 */
module BackendClient {
  import opened EspCamera
  import opened AppContext
  import opened FrameSizes
  import opened Strings
  import opened Wrappers
  import opened CameraSpec
  import opened ConfigStorage
  import CameraController

  /** `long` on the ESP32 is 32 bits wide; `LONG_MIN` doubles as "field absent". */
  const LONG_MIN := -0x8000_0000
  const LONG_MAX := 0x7FFF_FFFF

  const REGISTER_PATH := "/api/register"
  const CONFIG_PATH := "/api/config"

  // ---------------------------------------------------------------------------
  // joinUrl

  /** `joinUrl`: base and path with exactly one '/' between them. */
  function JoinUrl(base: string, path: string): string {
    if base == [] then path
    else if path == [] then base
    else if EndsWith(base, "/") then
      if path[0] == '/' then base + path[1..] else base + path
    else if path[0] == '/' then base + path
    else base + "/" + path
  }

  /** The config request URL: the config endpoint with the device id and the known revision. */
  function ConfigUrl(base: string, deviceId: string, revision: U32): string {
    JoinUrl(base, CONFIG_PATH) + "?deviceId=" + deviceId + "&rev=" + NatToString(revision)
  }

  // ---------------------------------------------------------------------------
  // The JSON field scanners

  /** The key in double quotes, as the scanners search for it. */
  function Needle(key: string): string {
    "\"" + key + "\""
  }

  /** Where the value of `key` starts: the first ':' after the first occurrence of the quoted key. */
  function KeyColon(body: string, key: string): (r: Option<nat>)
    ensures r.Some? ==> r.value < |body| && body[r.value] == ':'
  {
    var i := IndexOf(body, Needle(key), 0);
    if i < 0 then None
    else
      var k := IndexOfChar(body, ':', i + |Needle(key)|);
      if k < 0 then None else Some(k)
  }

  /** The text between the next two '"' at or after `from`, or "" when either is missing. */
  function QuotedFrom(body: string, from: nat): string {
    var q1 := IndexOfChar(body, '"', from);
    if q1 < 0 then ""
    else
      var q2 := IndexOfChar(body, '"', q1 + 1);
      if q2 < 0 then "" else body[q1 + 1..q2]
  }

  /** `jsonGetString`: the quoted text after the colon, or "" when the key or a quote is missing. */
  function JsonGetString(body: string, key: string): string {
    var c := KeyColon(body, key);
    if c.None? then "" else QuotedFrom(body, c.value + 1)
  }

  predicate IsBlank(ch: char) { ch == ' ' || ch == '\t' }

  /** The characters the integer scanner accepts. */
  predicate IsNumberChar(ch: char) { IsDigit(ch) || ch == '-' }

  /** The first position at or after `j` that is not a space or a tab. */
  function SkipBlanks(s: string, j: nat): (k: nat)
    requires j <= |s|
    ensures j <= k <= |s|
    decreases |s| - j
  {
    if j < |s| && IsBlank(s[j]) then SkipBlanks(s, j + 1) else j
  }

  /** The end of the run of digits and '-' starting at `j`. */
  function ScanNumber(s: string, j: nat): (k: nat)
    requires j <= |s|
    ensures j <= k <= |s|
    decreases |s| - j
  {
    if j < |s| && IsNumberChar(s[j]) then ScanNumber(s, j + 1) else j
  }

  /**
   * Arduino `String::toInt`: C `atol`, which in the ESP32's C library is
   * `strtol` and saturates at the bounds of a 32-bit `long`.
   */
  function ToInt(t: string): (v: int)
    ensures LONG_MIN <= v <= LONG_MAX
  {
    Constrain(AtoL(t), LONG_MIN, LONG_MAX)
  }

  /** The number after the blanks at or after `from`, or `defv` when no digit or '-' follows them. */
  function IntFrom(body: string, from: nat, defv: int): int
    requires from <= |body|
  {
    var s := SkipBlanks(body, from);
    var e := ScanNumber(body, s);
    if s == e then defv else ToInt(body[s..e])
  }

  /** What `jsonGetInt` returns. */
  function JsonInt(body: string, key: string, defv: int): int {
    var c := KeyColon(body, key);
    if c.None? then defv else IntFrom(body, c.value + 1, defv)
  }

  /** The literal after the blanks at or after `from`, or `defVal` when neither literal is there. */
  function BoolFrom(body: string, from: nat, defVal: bool): bool
    requires from <= |body|
  {
    var j := SkipBlanks(body, from);
    if StartsWithAt(body, "true", j) then true
    else if StartsWithAt(body, "false", j) then false
    else defVal
  }

  /** What `jsonGetBool` returns. */
  function JsonBool(body: string, key: string, defVal: bool): bool {
    var c := KeyColon(body, key);
    if c.None? then defVal else BoolFrom(body, c.value + 1, defVal)
  }

  /** Once the colon is found, each scanner reads on from just after it. */
  lemma StringAtColon(body: string, key: string, k: nat)
    requires KeyColon(body, key) == Some(k)
    ensures JsonGetString(body, key) == QuotedFrom(body, k + 1)
  {
  }

  lemma IntAtColon(body: string, key: string, k: nat, defv: int)
    requires KeyColon(body, key) == Some(k)
    ensures k + 1 <= |body| && JsonInt(body, key, defv) == IntFrom(body, k + 1, defv)
  {
  }

  lemma BoolAtColon(body: string, key: string, k: nat, defVal: bool)
    requires KeyColon(body, key) == Some(k)
    ensures k + 1 <= |body| && JsonBool(body, key, defVal) == BoolFrom(body, k + 1, defVal)
  {
  }

  /** The blank-skipping loop of `jsonGetInt` and `jsonGetBool`. */
  method SkipBlanksLoop(body: string, from: nat) returns (j: nat)
    requires from <= |body|
    ensures j == SkipBlanks(body, from)
  {
    j := from;
    while j < |body| && (body[j] == ' ' || body[j] == '\t')
      invariant from <= j <= |body|
      invariant SkipBlanks(body, j) == SkipBlanks(body, from)
      decreases |body| - j
    {
      j := j + 1;
    }
  }

  /** The digit-run loop of `jsonGetInt`. */
  method ScanNumberLoop(body: string, from: nat) returns (j: nat)
    requires from <= |body|
    ensures j == ScanNumber(body, from)
  {
    j := from;
    while j < |body| && (('0' <= body[j] <= '9') || body[j] == '-')
      invariant from <= j <= |body|
      invariant ScanNumber(body, j) == ScanNumber(body, from)
      decreases |body| - j
    {
      j := j + 1;
    }
  }

  /** `jsonGetInt`, scanning past blanks and then over the digit run. */
  method JsonGetInt(body: string, key: string, defv: int) returns (v: int)
    ensures v == JsonInt(body, key, defv)
  {
    var colon := KeyColon(body, key);
    if colon.None? {
      return defv;
    }
    IntAtColon(body, key, colon.value, defv);
    var s := SkipBlanksLoop(body, colon.value + 1);
    var e := ScanNumberLoop(body, s);
    if s == e {
      return defv;
    }
    return ToInt(body[s..e]);
  }

  /** `jsonGetBool`, scanning past blanks before the literal. */
  method JsonGetBool(body: string, key: string, defVal: bool) returns (b: bool)
    ensures b == JsonBool(body, key, defVal)
  {
    var colon := KeyColon(body, key);
    if colon.None? {
      return defVal;
    }
    BoolAtColon(body, key, colon.value, defVal);
    var j := SkipBlanksLoop(body, colon.value + 1);
    if StartsWithAt(body, "true", j) {
      return true;
    }
    if StartsWithAt(body, "false", j) {
      return false;
    }
    return defVal;
  }

  // ---------------------------------------------------------------------------
  // Applying a config body: the specification

  /** `static_cast<uint32_t>` of a `long`: the value modulo 2^32. */
  function ToU32(x: int): (r: U32)
    ensures 0 <= x < 0x1_0000_0000 ==> r == x
    ensures -0x1_0000_0000 <= x < 0 ==> r == x + 0x1_0000_0000
  {
    x % 0x1_0000_0000
  }

  /** A `uint32_t` passed where a 32-bit `long` is expected: values of 2^31 and up turn negative. */
  function U32ToLong(u: U32): (v: int)
    ensures LONG_MIN <= v <= LONG_MAX
    ensures u <= LONG_MAX ==> v == u
  {
    if u > LONG_MAX then u - 0x1_0000_0000 else u
  }

  /**
   * The frame size, quality, interval and upload fields of a config body. The
   * frame-size target changes only for a non-empty key (which is kept as
   * sent); quality and interval are clamped whatever arrives; an empty upload
   * URL keeps the current one, or derives the default from `baseUrl` when
   * there is none.
   */
  function UploadFields(cam: CameraState, up: UploadState, baseUrl: string, body: string): (CameraState, UploadState) {
    var fsKey := JsonGetString(body, "framesize");
    var q := Constrain(JsonInt(body, "jpegQuality", cam.jpegQualityTarget), 5, 63);
    var interval: U32 := Constrain(JsonInt(body, "uploadIntervalSec", U32ToLong(up.intervalSec)), 1, 3600);
    var url := JsonGetString(body, "uploadUrl");
    var tok := JsonGetString(body, "uploadToken");
    (cam.(frameSizeTarget := if fsKey != [] then FramesizeFromKey(fsKey) else cam.frameSizeTarget,
          frameSizeKeyTarget := if fsKey != [] then fsKey else cam.frameSizeKeyTarget,
          jpegQualityTarget := q),
     up.(apiUrl := if url != [] then url else if up.apiUrl == [] then DefaultUploadUrl(baseUrl) else up.apiUrl,
         apiToken := if tok != [] then tok else up.apiToken,
         autoUpload := JsonBool(body, "autoUpload", up.autoUpload),
         intervalSec := interval))
  }

  function UploadApplied(c: Ctx, body: string): Ctx {
    var (cam, up) := UploadFields(c.camera, c.upload, c.backend.baseUrl, body);
    c.(camera := cam, upload := up)
  }

  /** The boost switch of a config body: a change is stored and resets the low-light state. */
  function BoostApplied(c: Ctx, body: string): Ctx {
    var b := JsonBool(body, "lowLightBoost", c.lowLight.boostEnabled);
    if b != c.lowLight.boostEnabled then Reset(c.(lowLight := c.lowLight.(boostEnabled := b)))
    else c
  }

  /**
   * The target snapshot after a config body: each field as sent, or as it was
   * when the body does not carry it. The gain ceiling changes only for a value
   * that is present and not negative, and is then truncated to 8 bits.
   */
  function TargetFromBody(t: SensorTuning, body: string): SensorTuning {
    var gc := JsonInt(body, "gainceiling", LONG_MIN);
    SensorTuning(
      JsonBool(body, "whitebal", t.whitebal),
      JsonInt(body, "wbMode", t.wbMode),
      JsonBool(body, "hmirror", t.hmirror),
      JsonBool(body, "vflip", t.vflip),
      JsonInt(body, "brightness", t.brightness),
      JsonInt(body, "contrast", t.contrast),
      JsonInt(body, "saturation", t.saturation),
      JsonInt(body, "sharpness", t.sharpness),
      JsonBool(body, "awbGain", t.awbGain),
      JsonBool(body, "gainCtrl", t.gainCtrl),
      JsonBool(body, "exposureCtrl", t.exposureCtrl),
      if gc != LONG_MIN && gc >= 0 then ToU8(gc) else t.gainceilingIndex,
      JsonInt(body, "aeLevel", t.aeLevel),
      JsonBool(body, "lensCorr", t.lensCorr),
      JsonBool(body, "rawGma", t.rawGma),
      JsonBool(body, "bpc", t.bpcEnabled),
      JsonBool(body, "wpc", t.wpcEnabled),
      JsonBool(body, "dcw", t.dcwEnabled),
      JsonBool(body, "colorbar", t.colorbarEnabled),
      JsonInt(body, "specialEffect", t.specialEffect))
  }

  /** Everything a config body writes before the camera is reconciled. */
  function BodyApplied(c: Ctx, body: string): Ctx {
    var c1 := BoostApplied(UploadApplied(c, body), body);
    c1.(camera := c1.camera.(target := TargetFromBody(c1.camera.target, body)))
  }

  /** The revision is taken from the body only when the body has one. */
  function RevApplied(c: Ctx, body: string): Ctx {
    var rev := JsonInt(body, "rev", LONG_MIN);
    if rev != LONG_MIN then c.(backend := c.backend.(revision := ToU32(rev))) else c
  }

  /** A config body applied: fields written, camera reconciled, revision recorded, everything saved. */
  function ConfigApplied(c: Ctx, body: string): Ctx {
    var c1 := RevApplied(ApplyConfig(BodyApplied(c, body)), body);
    c1.(prefs := Saved(c1))
  }

  /** The outcome of an HTTP request: the client could not be started, or a status code and body. */
  datatype HttpResponse = BeginFailed | Response(code: int, body: string)

  /**
   * `fetchConfigFromBackend`: nothing happens without a backend URL, a token
   * and WiFi, or when the request fails to start or the status is not
   * positive; any positive status has its body applied.
   */
  function FetchConfig(c: Ctx, wifiUp: bool, resp: HttpResponse): (Ctx, bool) {
    if c.backend.baseUrl == [] || c.backend.token == [] || !wifiUp then (c, false)
    else
      match resp
      case BeginFailed => (c, false)
      case Response(code, body) =>
        if code <= 0 then (c, false) else (ConfigApplied(c, body), true)
  }

  // ---------------------------------------------------------------------------
  // Applying a config body: the routines

  /** The frame size, quality, interval and upload fields, read and clamped. */
  method ReadUploadFields(cam0: CameraState, up0: UploadState, baseUrl: string, body: string)
    returns (cam: CameraState, up: UploadState)
    ensures (cam, up) == UploadFields(cam0, up0, baseUrl, body)
  {
    var fsKey := JsonGetString(body, "framesize");
    var q := JsonGetInt(body, "jpegQuality", cam0.jpegQualityTarget);
    var interval := JsonGetInt(body, "uploadIntervalSec", U32ToLong(up0.intervalSec));
    var newUploadUrl := JsonGetString(body, "uploadUrl");
    var newUploadTok := JsonGetString(body, "uploadToken");
    var newAuto := JsonGetBool(body, "autoUpload", up0.autoUpload);

    var fsTarget, fsKeyTarget := cam0.frameSizeTarget, cam0.frameSizeKeyTarget;
    if |fsKey| > 0 {
      fsTarget := FramesizeFromKey(fsKey);
      fsKeyTarget := fsKey;
    }
    ghost var q0 := q;
    if q < 5 {
      q := 5;
    }
    if q > 63 {
      q := 63;
    }
    assert q == Constrain(q0, 5, 63);

    ghost var interval0 := interval;
    if interval < 1 {
      interval := 1;
    }
    if interval > 3600 {
      interval := 3600;
    }
    assert interval == Constrain(interval0, 1, 3600);

    var apiUrl := up0.apiUrl;
    if |newUploadUrl| > 0 {
      apiUrl := newUploadUrl;
    } else if apiUrl == [] {
      apiUrl := DefaultUploadUrl(baseUrl);
    }
    var apiToken := up0.apiToken;
    if |newUploadTok| > 0 {
      apiToken := newUploadTok;
    }
    cam := cam0.(frameSizeTarget := fsTarget, frameSizeKeyTarget := fsKeyTarget, jpegQualityTarget := q);
    up := up0.(apiUrl := apiUrl, apiToken := apiToken, autoUpload := newAuto, intervalSec := interval);
  }

  /** Applies the frame size, quality, interval and upload fields to the context. */
  method ApplyUploadFields(ctx: FirmwareState, body: string)
    modifies ctx
    ensures ctx.Snap() == UploadApplied(old(ctx.Snap()), body)
  {
    var cam, up := ReadUploadFields(ctx.camera, ctx.upload, ctx.backend.baseUrl, body);
    ctx.camera := cam;
    ctx.upload := up;
  }

  /** The boost switch, resetting the low-light state when it flips. */
  method ApplyBoostField(ctx: FirmwareState, body: string)
    modifies ctx
    ensures ctx.Snap() == BoostApplied(old(ctx.Snap()), body)
  {
    var newLowLight := JsonGetBool(body, "lowLightBoost", ctx.lowLight.boostEnabled);
    if ctx.lowLight.boostEnabled != newLowLight {
      ctx.lowLight := ctx.lowLight.(boostEnabled := newLowLight);
      CameraController.ResetLowLightState(ctx);
    }
  }

  /** The target fields, one scan each, defaulting to the current value. */
  method ReadTargetFields(body: string, t0: SensorTuning) returns (t: SensorTuning)
    ensures t == TargetFromBody(t0, body)
  {
    var whitebal := JsonGetBool(body, "whitebal", t0.whitebal);
    var wbMode := JsonGetInt(body, "wbMode", t0.wbMode);
    var hmirror := JsonGetBool(body, "hmirror", t0.hmirror);
    var vflip := JsonGetBool(body, "vflip", t0.vflip);
    var brightness := JsonGetInt(body, "brightness", t0.brightness);
    var contrast := JsonGetInt(body, "contrast", t0.contrast);
    var saturation := JsonGetInt(body, "saturation", t0.saturation);
    var sharpness := JsonGetInt(body, "sharpness", t0.sharpness);
    var awbGain := JsonGetBool(body, "awbGain", t0.awbGain);
    var gainCtrl := JsonGetBool(body, "gainCtrl", t0.gainCtrl);
    var exposureCtrl := JsonGetBool(body, "exposureCtrl", t0.exposureCtrl);
    var gc := JsonGetInt(body, "gainceiling", LONG_MIN);
    var gainceiling := t0.gainceilingIndex;
    if gc != LONG_MIN && gc >= 0 {
      gainceiling := ToU8(gc);
    }
    var aeLevel := JsonGetInt(body, "aeLevel", t0.aeLevel);
    var lensCorr := JsonGetBool(body, "lensCorr", t0.lensCorr);
    var rawGma := JsonGetBool(body, "rawGma", t0.rawGma);
    var bpc := JsonGetBool(body, "bpc", t0.bpcEnabled);
    var wpc := JsonGetBool(body, "wpc", t0.wpcEnabled);
    var dcw := JsonGetBool(body, "dcw", t0.dcwEnabled);
    var colorbar := JsonGetBool(body, "colorbar", t0.colorbarEnabled);
    var specialEffect := JsonGetInt(body, "specialEffect", t0.specialEffect);
    t := SensorTuning(whitebal, wbMode, hmirror, vflip, brightness, contrast, saturation, sharpness,
                      awbGain, gainCtrl, exposureCtrl, gainceiling, aeLevel, lensCorr, rawGma,
                      bpc, wpc, dcw, colorbar, specialEffect);
  }

  /**
   * The body-to-target update of `fetchConfigFromBackend`, then
   * `applyConfigIfNeeded`, the revision, and `savePrefs`. The scanners only
   * read the body, so each field is scanned just before it is used.
   */
  method ApplyConfigBody(ctx: FirmwareState, body: string)
    modifies ctx
    ensures ctx.Snap() == ConfigApplied(old(ctx.Snap()), body)
  {
    ghost var c0 := ctx.Snap();
    var rev := JsonGetInt(body, "rev", LONG_MIN);
    ApplyUploadFields(ctx, body);
    ApplyBoostField(ctx, body);
    var target := ReadTargetFields(body, ctx.camera.target);
    ctx.camera := ctx.camera.(target := target);
    ghost var c1 := ctx.Snap();
    assert c1 == BodyApplied(c0, body);
    CameraController.ApplyConfigIfNeeded(ctx);
    if rev != LONG_MIN {
      ctx.backend := ctx.backend.(revision := ToU32(rev));
    }
    assert ctx.Snap() == RevApplied(ApplyConfig(c1), body);
    SavePrefs(ctx);
  }

  /** `fetchConfigFromBackend` with WiFi status and the request's outcome given. */
  method FetchConfigFromBackend(ctx: FirmwareState, wifiUp: bool, resp: HttpResponse) returns (ok: bool)
    modifies ctx
    ensures (ctx.Snap(), ok) == FetchConfig(old(ctx.Snap()), wifiUp, resp)
  {
    if ctx.backend.baseUrl == [] || ctx.backend.token == [] || !wifiUp {
      return false;
    }
    if resp.BeginFailed? {
      return false;
    }
    if resp.code <= 0 {
      return false;
    }
    ApplyConfigBody(ctx, resp.body);
    return true;
  }

  // ---------------------------------------------------------------------------
  // Uploading a frame

  /** The outcome of the upload POST: the client could not be started, or status, payload and error text. */
  datatype PostResult = PostBeginFailed | Posted(code: int, payload: string, errorText: string)

  /**
   * `uploadFrameToApi`'s effect on the context: it records the status and an
   * error or the response payload, and succeeds only on a 2xx status.
   */
  function UploadFrame(c: Ctx, wifiUp: bool, post: PostResult): (Ctx, bool) {
    if c.upload.apiUrl == [] then (c.(http := HttpState(0, "No API URL")), false)
    else if !wifiUp then (c.(http := HttpState(0, "No WiFi")), false)
    else
      match post
      case PostBeginFailed => (c.(http := HttpState(0, "http.begin()")), false)
      case Posted(code, payload, errorText) =>
        if code <= 0 then (c.(http := HttpState(code, errorText)), false)
        else (c.(http := HttpState(code, payload)), 200 <= code < 300)
  }

  /** A frame handed out by `safeGrab` is still held after the low-light step and the upload. */
  lemma HeldAfterGrab(c: Ctx, now: U32, later: U32, wifiUp: bool, post: PostResult)
    requires SafeGrab(c, now).1
    ensures UploadFrame(Evaluate(SafeGrab(c, now).0, later), wifiUp, post).0.hw.held == c.hw.held + 1
  {
    GrabHandsOut(c, now);
    EvaluateKeepsHeld(SafeGrab(c, now).0, later);
  }

  /**
   * `safeGrab` hands out one frame buffer when it reports success and none
   * otherwise; the re-init it may run moves no buffers.
   */
  lemma GrabHandsOut(c: Ctx, now: U32)
    ensures SafeGrab(c, now).0.hw.held == (if SafeGrab(c, now).1 then c.hw.held + 1 else c.hw.held)
  {
    var (d, ok) := FbGet(c.hw);
    if !ok && d.up {
      // The fallback sizes: one more buffer on a hit, none on a miss.
      FallbackHeld(d, c.camera.frameSize, 0);
    }
    var (c1, got) := GrabAttempts(c);
    if !got && ReinitDue(c1, now) {
      ReinitKeepsHeld(c1.(camera := c1.camera.(lastReinitMs := now)));
    }
  }

  lemma {:induction false} FallbackHeld(d: Driver, wanted: FrameSize, i: nat)
    requires d.up
    ensures var (r, hit) := FallbackGrab(d, wanted, i);
      r.held == (if hit.Some? then d.held + 1 else d.held) && r.up
    decreases |FallbackSizes| - i
  {
    if i < |FallbackSizes| {
      if FallbackSizes[i] >= wanted {
        FallbackHeld(d, wanted, i + 1);
      } else {
        var got := FbGet(d.(regs := d.regs.(frameSize := FallbackSizes[i])));
        if !got.1 {
          FallbackHeld(got.0, wanted, i + 1);
        }
      }
    }
  }

  lemma ReinitKeepsHeld(c: Ctx)
    ensures ReinitLower(c).hw.held == c.hw.held
  {
  }

  lemma EvaluateKeepsHeld(c: Ctx, now: U32)
    ensures Evaluate(c, now).hw.held == c.hw.held
  {
  }

  /**
   * `captureAndUploadOnce`: nothing without an initialised camera; a failed
   * grab is recorded and returns nothing; a frame is evaluated for low light,
   * uploaded, and then given back to the driver. `now` and `later` are the
   * clock readings of the grab and of the low-light step.
   */
  function CaptureUpload(c: Ctx, now: U32, later: U32, wifiUp: bool, post: PostResult): (Ctx, bool) {
    if !c.camera.inited then (c, false)
    else
      var (c1, got) := SafeGrab(c, now);
      if !got then (c1.(http := HttpState(0, "fb=null")), false)
      else
        var (c3, ok) := UploadFrame(Evaluate(c1, later), wifiUp, post);
        HeldAfterGrab(c, now, later, wifiUp, post);
        (c3.(hw := FbReturn(c3.hw)), ok)
  }

  /** `uploadFrameToApi` with WiFi status and the POST's outcome given. */
  method UploadFrameToApi(ctx: FirmwareState, wifiUp: bool, post: PostResult) returns (ok: bool)
    modifies ctx
    ensures (ctx.Snap(), ok) == UploadFrame(old(ctx.Snap()), wifiUp, post)
  {
    if ctx.upload.apiUrl == [] {
      ctx.http := ctx.http.(lastError := "No API URL");
      ctx.http := ctx.http.(lastStatus := 0);
      return false;
    }
    if !wifiUp {
      ctx.http := ctx.http.(lastError := "No WiFi");
      ctx.http := ctx.http.(lastStatus := 0);
      return false;
    }
    if post.PostBeginFailed? {
      ctx.http := ctx.http.(lastError := "http.begin()");
      ctx.http := ctx.http.(lastStatus := 0);
      return false;
    }
    ctx.http := ctx.http.(lastStatus := post.code);
    if post.code <= 0 {
      ctx.http := ctx.http.(lastError := post.errorText);
      return false;
    }
    ctx.http := ctx.http.(lastError := post.payload);
    return 200 <= post.code < 300;
  }

  /** `captureAndUploadOnce` with the clock readings, WiFi status and the POST's outcome given. */
  method CaptureAndUploadOnce(ctx: FirmwareState, now: U32, later: U32, wifiUp: bool, post: PostResult)
    returns (ok: bool)
    modifies ctx
    ensures (ctx.Snap(), ok) == CaptureUpload(old(ctx.Snap()), now, later, wifiUp, post)
  {
    if !ctx.camera.inited {
      return false;
    }
    ghost var c0 := ctx.Snap();
    var got := CameraController.SafeGrab(ctx, now);
    if !got {
      ctx.http := ctx.http.(lastError := "fb=null");
      ctx.http := ctx.http.(lastStatus := 0);
      return false;
    }
    CameraController.EvaluateLowLightMetrics(ctx, later);
    ok := UploadFrameToApi(ctx, wifiUp, post);
    HeldAfterGrab(c0, now, later, wifiUp, post);
    ctx.hw := FbReturn(ctx.hw);
  }
}
