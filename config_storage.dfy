/**
 * The firmware's persistent configuration: the typed preference store
 * (non-volatile storage, a namespace of keys each holding a string, a signed
 * or an unsigned 32-bit integer, or a boolean), `loadPrefs`, which reads the
 * whole configuration at boot and normalises it, `savePrefs`, which writes
 * the target configuration back, and the hexadecimal device id derived from
 * the chip's factory MAC address.
 */
module ConfigStorage {
  import opened EspCamera
  import opened AppContext
  import opened FrameSizes
  import opened CameraSpec
  import CameraController

  // ---------------------------------------------------------------------------
  // The typed store

  /** The string each key is stored under. */
  function KeyName(k: PrefKey): string {
    match k
    case WifiSsid => "wifi_ssid"
    case WifiPass => "wifi_pass"
    case BeUrl => "be_url"
    case BeTok => "be_tok"
    case ApiUrl => "api_url"
    case ApiToken => "api_token"
    case JpegQ => "jpeg_q"
    case FsKey => "fs_key"
    case AutoUp => "auto_up"
    case UpInt => "up_int"
    case CfgRev => "cfg_rev"
    case Awb => "awb"
    case Wbm => "wbm"
    case Hmr => "hmr"
    case Vfl => "vfl"
    case Bri => "bri"
    case Con => "con"
    case Sat => "sat"
    case Shp => "shp"
    case Awg => "awg"
    case Agc => "agc"
    case Aec => "aec"
    case Gci => "gci"
    case Ael => "ael"
    case Lenc => "lenc"
    case Rgm => "rgm"
    case Bpc => "bpc"
    case Wpc => "wpc"
    case Dcw => "dcw"
    case Clb => "clb"
    case Spe => "spe"
    case LowLight => "low_light"
  }

  /** A read returns the stored value when the key holds one of the type read, and the default otherwise. */
  function GetString(p: Prefs, k: PrefKey, def: string): string {
    if k in p && p[k].PrefString? then p[k].s else def
  }

  function GetInt(p: Prefs, k: PrefKey, def: int): int {
    if k in p && p[k].PrefInt? then p[k].i else def
  }

  function GetUInt(p: Prefs, k: PrefKey, def: U32): U32 {
    if k in p && p[k].PrefUInt? then p[k].u else def
  }

  function GetBool(p: Prefs, k: PrefKey, def: bool): bool {
    if k in p && p[k].PrefBool? then p[k].b else def
  }

  /** `static_cast<uint8_t>` of an `int`: the value modulo 256. */
  function ToU8(x: int): (r: U8)
    ensures 0 <= x < 0x100 ==> r == x
  {
    x % 0x100
  }

  // ---------------------------------------------------------------------------
  // loadPrefs

  /** The tuning snapshot as read from the store, before any clamp; each field has its own default. */
  function ReadTuning(p: Prefs): SensorTuning {
    SensorTuning(
      GetBool(p, Awb, true), GetInt(p, Wbm, 0), GetBool(p, Hmr, false), GetBool(p, Vfl, false),
      GetInt(p, Bri, 0), GetInt(p, Con, 1), GetInt(p, Sat, 1), GetInt(p, Shp, 1),
      GetBool(p, Awg, true), GetBool(p, Agc, true), GetBool(p, Aec, true),
      ToU8(GetInt(p, Gci, 4)), GetInt(p, Ael, 0),
      GetBool(p, Lenc, true), GetBool(p, Rgm, true), GetBool(p, Bpc, true),
      GetBool(p, Wpc, true), GetBool(p, Dcw, true), GetBool(p, Clb, false),
      GetInt(p, Spe, 0))
  }

  /**
   * The clamps `loadPrefs` applies to a stored snapshot: tone fields and
   * exposure level to [-2, 2], special effect to [0, 6], gain ceiling index to
   * at most 5. The white-balance mode is not clamped here.
   */
  function LoadClamp(t: SensorTuning): SensorTuning {
    t.(brightness := Constrain(t.brightness, -2, 2),
       contrast := Constrain(t.contrast, -2, 2),
       saturation := Constrain(t.saturation, -2, 2),
       sharpness := Constrain(t.sharpness, -2, 2),
       aeLevel := Constrain(t.aeLevel, -2, 2),
       specialEffect := Constrain(t.specialEffect, 0, 6),
       gainceilingIndex := if t.gainceilingIndex > 5 then 5 else t.gainceilingIndex)
  }

  /** The upload endpoint after loading: the stored one, or the backend's default when none is stored. */
  function LoadedApiUrl(apiUrl: string, baseUrl: string): string {
    if apiUrl == [] && baseUrl != [] then DefaultUploadUrl(baseUrl) else apiUrl
  }

  /** The first half of `loadPrefs`: every field read from the store, each with its default. */
  function ReadStored(c: Ctx): Ctx {
    var p := c.prefs;
    c.(network := c.network.(ssid := GetString(p, WifiSsid, ""), password := GetString(p, WifiPass, "")),
       backend := c.backend.(baseUrl := GetString(p, BeUrl, ""), token := GetString(p, BeTok, ""),
                             revision := GetUInt(p, CfgRev, 0)),
       upload := c.upload.(apiUrl := GetString(p, ApiUrl, ""), apiToken := GetString(p, ApiToken, ""),
                           autoUpload := GetBool(p, AutoUp, false), intervalSec := GetUInt(p, UpInt, 10)),
       camera := c.camera.(jpegQuality := GetInt(p, JpegQ, 12), frameSizeKey := GetString(p, FsKey, "VGA"),
                           tuning := ReadTuning(p)),
       lowLight := c.lowLight.(boostEnabled := GetBool(p, LowLight, true)))
  }

  /**
   * The second half: the upload endpoint defaulted from the backend URL, the
   * frame size looked up from its key, quality and interval clamped, the
   * tuning clamped, and targets set equal to what was loaded.
   */
  function Normalise(c: Ctx): Ctx {
    var fs := FramesizeFromKey(c.camera.frameSizeKey);
    var q := Constrain(c.camera.jpegQuality, 5, 63);
    var interval: U32 := Constrain(c.upload.intervalSec, 1, 3600);
    var t := LoadClamp(c.camera.tuning);
    c.(upload := c.upload.(apiUrl := LoadedApiUrl(c.upload.apiUrl, c.backend.baseUrl), intervalSec := interval),
       camera := c.camera.(frameSize := fs, frameSizeTarget := fs, frameSizeKeyTarget := c.camera.frameSizeKey,
                           jpegQuality := q, jpegQualityTarget := q, tuning := t, target := t))
  }

  /** `loadPrefs`: the fields read and normalised, then `resetLowLightState`. */
  function Loaded(c: Ctx): Ctx {
    Reset(Normalise(ReadStored(c)))
  }

  /** The reading half of `loadPrefs`, one key at a time. */
  method ReadStoredPrefs(ctx: FirmwareState)
    modifies ctx
    ensures ctx.Snap() == ReadStored(old(ctx.Snap()))
  {
    var p := ctx.prefs;
    ctx.network := ctx.network.(ssid := GetString(p, WifiSsid, ""));
    ctx.network := ctx.network.(password := GetString(p, WifiPass, ""));
    ctx.backend := ctx.backend.(baseUrl := GetString(p, BeUrl, ""));
    ctx.backend := ctx.backend.(token := GetString(p, BeTok, ""));
    ctx.upload := ctx.upload.(apiUrl := GetString(p, ApiUrl, ""));
    ctx.upload := ctx.upload.(apiToken := GetString(p, ApiToken, ""));
    ctx.camera := ctx.camera.(jpegQuality := GetInt(p, JpegQ, 12));
    ctx.camera := ctx.camera.(frameSizeKey := GetString(p, FsKey, "VGA"));
    ctx.upload := ctx.upload.(autoUpload := GetBool(p, AutoUp, false));
    ctx.upload := ctx.upload.(intervalSec := GetUInt(p, UpInt, 10));
    ctx.backend := ctx.backend.(revision := GetUInt(p, CfgRev, 0));
    ctx.camera := ctx.camera.(tuning := ReadTuning(p));
    ctx.lowLight := ctx.lowLight.(boostEnabled := GetBool(p, LowLight, true));
  }

  /** The tuning clamps of `loadPrefs`. */
  method ClampStored(t0: SensorTuning) returns (t: SensorTuning)
    ensures t == LoadClamp(t0)
  {
    t := t0.(
      brightness := Constrain(t0.brightness, -2, 2),
      contrast := Constrain(t0.contrast, -2, 2),
      saturation := Constrain(t0.saturation, -2, 2),
      sharpness := Constrain(t0.sharpness, -2, 2),
      aeLevel := Constrain(t0.aeLevel, -2, 2),
      specialEffect := Constrain(t0.specialEffect, 0, 6));
    if t.gainceilingIndex > 5 {
      t := t.(gainceilingIndex := 5);
    }
  }

  /** The normalising half of `loadPrefs`. */
  method NormalisePrefs(ctx: FirmwareState)
    modifies ctx
    ensures ctx.Snap() == Normalise(old(ctx.Snap()))
  {
    var upload := ctx.upload;
    var camera := ctx.camera;
    if upload.apiUrl == [] && ctx.backend.baseUrl != [] {
      upload := upload.(apiUrl := DefaultUploadUrl(ctx.backend.baseUrl));
    }

    camera := camera.(frameSize := FramesizeFromKey(camera.frameSizeKey));
    camera := camera.(frameSizeTarget := camera.frameSize);
    camera := camera.(frameSizeKeyTarget := camera.frameSizeKey);

    var quality := camera.jpegQuality;
    if quality < 5 {
      quality := 5;
    }
    if quality > 63 {
      quality := 63;
    }
    assert quality == Constrain(camera.jpegQuality, 5, 63);
    camera := camera.(jpegQuality := quality, jpegQualityTarget := quality);

    var interval := upload.intervalSec;
    if interval < 1 {
      interval := 1;
    }
    if interval > 3600 {
      interval := 3600;
    }
    assert interval == Constrain(upload.intervalSec, 1, 3600);
    upload := upload.(intervalSec := interval);

    var tuning := ClampStored(camera.tuning);
    camera := camera.(tuning := tuning, target := tuning);
    ctx.upload := upload;
    ctx.camera := camera;
  }

  /** `loadPrefs` on the global context. */
  method LoadPrefs(ctx: FirmwareState)
    modifies ctx
    ensures ctx.Snap() == Loaded(old(ctx.Snap()))
  {
    ReadStoredPrefs(ctx);
    NormalisePrefs(ctx);
    CameraController.ResetLowLightState(ctx);
  }

  // ---------------------------------------------------------------------------
  // savePrefs

  /** The thirty-two writes of `savePrefs`, in order, on any store and with any values. */
  function SaveWrites(
    p: Prefs,
    ssid: PrefValue, pass: PrefValue, url: PrefValue, tok: PrefValue, api: PrefValue,
    apiTok: PrefValue, jpeg: PrefValue, fs: PrefValue, auto: PrefValue, interval: PrefValue,
    rev: PrefValue, awb: PrefValue, wbm: PrefValue, hmr: PrefValue, vfl: PrefValue, bri: PrefValue,
    con: PrefValue, sat: PrefValue, shp: PrefValue, awg: PrefValue, agc: PrefValue, aec: PrefValue,
    gci: PrefValue, ael: PrefValue, lenc: PrefValue, rgm: PrefValue, bpc: PrefValue,
    wpc: PrefValue, dcw: PrefValue, clb: PrefValue, spe: PrefValue, low: PrefValue): Prefs
  {
    p[WifiSsid := ssid][WifiPass := pass][BeUrl := url][BeTok := tok][ApiUrl := api]
     [ApiToken := apiTok][JpegQ := jpeg][FsKey := fs][AutoUp := auto][UpInt := interval][CfgRev := rev]
     [Awb := awb][Wbm := wbm][Hmr := hmr][Vfl := vfl][Bri := bri][Con := con][Sat := sat]
     [Shp := shp][Awg := awg][Agc := agc][Aec := aec][Gci := gci][Ael := ael][Lenc := lenc]
     [Rgm := rgm][Bpc := bpc][Wpc := wpc][Dcw := dcw][Clb := clb][Spe := spe][LowLight := low]
  }

  /** The store after `savePrefs`: the thirty-two keys overwritten with the target configuration. */
  function Saved(c: Ctx): Prefs {
    var t := c.camera.target;
    SaveWrites(c.prefs,
      PrefString(c.network.ssid), PrefString(c.network.password), PrefString(c.backend.baseUrl),
      PrefString(c.backend.token), PrefString(c.upload.apiUrl), PrefString(c.upload.apiToken),
      PrefInt(c.camera.jpegQualityTarget), PrefString(c.camera.frameSizeKeyTarget),
      PrefBool(c.upload.autoUpload), PrefUInt(c.upload.intervalSec), PrefUInt(c.backend.revision),
      PrefBool(t.whitebal), PrefInt(t.wbMode), PrefBool(t.hmirror), PrefBool(t.vflip),
      PrefInt(t.brightness), PrefInt(t.contrast), PrefInt(t.saturation), PrefInt(t.sharpness),
      PrefBool(t.awbGain), PrefBool(t.gainCtrl), PrefBool(t.exposureCtrl),
      PrefInt(t.gainceilingIndex), PrefInt(t.aeLevel), PrefBool(t.lensCorr), PrefBool(t.rawGma),
      PrefBool(t.bpcEnabled), PrefBool(t.wpcEnabled), PrefBool(t.dcwEnabled),
      PrefBool(t.colorbarEnabled), PrefInt(t.specialEffect), PrefBool(c.lowLight.boostEnabled))
  }

  /** `savePrefs`: one write per key; nothing but the store changes. */
  method SavePrefs(ctx: FirmwareState)
    modifies ctx
    ensures ctx.Snap() == old(ctx.Snap()).(prefs := Saved(old(ctx.Snap())))
  {
    var t := ctx.camera.target;
    ctx.prefs := ctx.prefs[WifiSsid := PrefString(ctx.network.ssid)];
    ctx.prefs := ctx.prefs[WifiPass := PrefString(ctx.network.password)];
    ctx.prefs := ctx.prefs[BeUrl := PrefString(ctx.backend.baseUrl)];
    ctx.prefs := ctx.prefs[BeTok := PrefString(ctx.backend.token)];
    ctx.prefs := ctx.prefs[ApiUrl := PrefString(ctx.upload.apiUrl)];
    ctx.prefs := ctx.prefs[ApiToken := PrefString(ctx.upload.apiToken)];
    ctx.prefs := ctx.prefs[JpegQ := PrefInt(ctx.camera.jpegQualityTarget)];
    ctx.prefs := ctx.prefs[FsKey := PrefString(ctx.camera.frameSizeKeyTarget)];
    ctx.prefs := ctx.prefs[AutoUp := PrefBool(ctx.upload.autoUpload)];
    ctx.prefs := ctx.prefs[UpInt := PrefUInt(ctx.upload.intervalSec)];
    ctx.prefs := ctx.prefs[CfgRev := PrefUInt(ctx.backend.revision)];
    ctx.prefs := ctx.prefs[Awb := PrefBool(t.whitebal)];
    ctx.prefs := ctx.prefs[Wbm := PrefInt(t.wbMode)];
    ctx.prefs := ctx.prefs[Hmr := PrefBool(t.hmirror)];
    ctx.prefs := ctx.prefs[Vfl := PrefBool(t.vflip)];
    ctx.prefs := ctx.prefs[Bri := PrefInt(t.brightness)];
    ctx.prefs := ctx.prefs[Con := PrefInt(t.contrast)];
    ctx.prefs := ctx.prefs[Sat := PrefInt(t.saturation)];
    ctx.prefs := ctx.prefs[Shp := PrefInt(t.sharpness)];
    ctx.prefs := ctx.prefs[Awg := PrefBool(t.awbGain)];
    ctx.prefs := ctx.prefs[Agc := PrefBool(t.gainCtrl)];
    ctx.prefs := ctx.prefs[Aec := PrefBool(t.exposureCtrl)];
    ctx.prefs := ctx.prefs[Gci := PrefInt(t.gainceilingIndex)];
    ctx.prefs := ctx.prefs[Ael := PrefInt(t.aeLevel)];
    ctx.prefs := ctx.prefs[Lenc := PrefBool(t.lensCorr)];
    ctx.prefs := ctx.prefs[Rgm := PrefBool(t.rawGma)];
    ctx.prefs := ctx.prefs[Bpc := PrefBool(t.bpcEnabled)];
    ctx.prefs := ctx.prefs[Wpc := PrefBool(t.wpcEnabled)];
    ctx.prefs := ctx.prefs[Dcw := PrefBool(t.dcwEnabled)];
    ctx.prefs := ctx.prefs[Clb := PrefBool(t.colorbarEnabled)];
    ctx.prefs := ctx.prefs[Spe := PrefInt(t.specialEffect)];
    ctx.prefs := ctx.prefs[LowLight := PrefBool(ctx.lowLight.boostEnabled)];
  }

  // ---------------------------------------------------------------------------
  // getDeviceIdHex

  const HexDigits := "0123456789ABCDEF"

  /** The digits of `n` in upper-case hexadecimal, most significant first, without leading zeros. */
  function Hex(n: nat): string
    decreases n
  {
    if n < 16 then [HexDigits[n]] else Hex(n / 16) + [HexDigits[n % 16]]
  }

  /** `s` preceded by as many `'0'` as it takes to make it `width` long. */
  function PadZeros(s: string, width: nat): string {
    if |s| >= width then s else seq(width - |s|, _ => '0') + s
  }

  /** `getDeviceIdHex`: the 64-bit factory MAC printed with `%012llX`. */
  function DeviceIdHex(mac: nat): string
    requires mac < 0x1_0000_0000_0000_0000
  {
    PadZeros(Hex(mac), 12)
  }
}
