/**
 * What the configuration storage promises: the key names fit the store and
 * identify their keys, `loadPrefs` always leaves a normalised configuration
 * (and the built-in defaults when the store is empty), a save followed by a
 * load gives back the saved configuration up to the load-time clamps, and
 * the device id is the MAC address in twelve hexadecimal digits.
 */
module ConfigLemmas {
  import opened EspCamera
  import opened AppContext
  import opened FrameSizes
  import opened Strings
  import opened Wrappers
  import opened CameraSpec
  import opened CameraLemmas
  import opened ConfigStorage

  // ---------------------------------------------------------------------------
  // Key names

  /** The key stored under a name, if any: the inverse of `KeyName`. */
  function KeyOfName(s: string): Option<PrefKey> {
    if |s| == 3 then KeyOfShortName(s)
    else if s == "lenc" then Some(Lenc)
    else if |s| == 6 then
      if s == "be_url" then Some(BeUrl) else if s == "be_tok" then Some(BeTok)
      else if s == "jpeg_q" then Some(JpegQ) else if s == "fs_key" then Some(FsKey)
      else if s == "up_int" then Some(UpInt) else None
    else if |s| == 7 then
      if s == "api_url" then Some(ApiUrl) else if s == "auto_up" then Some(AutoUp)
      else if s == "cfg_rev" then Some(CfgRev) else None
    else if |s| == 9 then
      if s == "wifi_ssid" then Some(WifiSsid) else if s == "wifi_pass" then Some(WifiPass)
      else if s == "api_token" then Some(ApiToken) else if s == "low_light" then Some(LowLight)
      else None
    else None
  }

  /** The three-letter names, told apart by their first letter first. */
  function KeyOfShortName(s: string): Option<PrefKey>
    requires |s| == 3
  {
    match s[0]
    case 'a' =>
      if s == "awb" then Some(Awb) else if s == "awg" then Some(Awg)
      else if s == "agc" then Some(Agc) else if s == "aec" then Some(Aec)
      else if s == "ael" then Some(Ael) else None
    case 'b' => if s == "bri" then Some(Bri) else if s == "bpc" then Some(Bpc) else None
    case 'c' => if s == "con" then Some(Con) else if s == "clb" then Some(Clb) else None
    case 'd' => if s == "dcw" then Some(Dcw) else None
    case 'g' => if s == "gci" then Some(Gci) else None
    case 'h' => if s == "hmr" then Some(Hmr) else None
    case 'r' => if s == "rgm" then Some(Rgm) else None
    case 's' =>
      if s == "sat" then Some(Sat) else if s == "shp" then Some(Shp)
      else if s == "spe" then Some(Spe) else None
    case 'v' => if s == "vfl" then Some(Vfl) else None
    case 'w' => if s == "wbm" then Some(Wbm) else if s == "wpc" then Some(Wpc) else None
    case _ => None
  }

  /**
   * Every key name fits the store's 15-character limit on key names, and the
   * name identifies its key, so no two keys share a name.
   */
  lemma KeyNames(k: PrefKey)
    ensures 1 <= |KeyName(k)| <= 15
    ensures KeyOfName(KeyName(k)) == Some(k)
  {
  }

  /** No two keys share a name: the store could not confuse two settings. */
  lemma KeyNamesDistinct(a: PrefKey, b: PrefKey)
    requires a != b
    ensures KeyName(a) != KeyName(b)
  {
    KeyNames(a);
    KeyNames(b);
  }

  // ---------------------------------------------------------------------------
  // loadPrefs

  /** The ranges `loadPrefs` establishes for the tuning (the white-balance mode has none). */
  predicate StoredInRange(t: SensorTuning) {
    && -2 <= t.brightness <= 2 && -2 <= t.contrast <= 2
    && -2 <= t.saturation <= 2 && -2 <= t.sharpness <= 2
    && -2 <= t.aeLevel <= 2
    && 0 <= t.specialEffect <= 6
    && t.gainceilingIndex <= 5
  }

  /** The load-time clamp lands in range and keeps the switches and the white-balance mode. */
  lemma LoadClampSpec(t: SensorTuning)
    ensures StoredInRange(LoadClamp(t))
    ensures LoadClamp(t).wbMode == t.wbMode && SameSwitches(LoadClamp(t), t)
  {
  }

  /** The load-time clamp keeps a snapshot that is already in range. */
  lemma LoadClampKeeps(t: SensorTuning)
    requires StoredInRange(t)
    ensures LoadClamp(t) == t
  {
  }

  /** Clamping at load time never changes what the sensor is finally given. */
  lemma LoadClampAgrees(t: SensorTuning)
    ensures ClampTuning(LoadClamp(t)) == ClampTuning(t)
  {
  }

  /** `loadPrefs` on the configuration fields: what every field is read as, and its range. */
  lemma LoadedConfig(c: Ctx)
    ensures
      var r := Loaded(c);
      var p := c.prefs;
      var stored := GetString(p, ApiUrl, "");
      && r.prefs == p
      && r.network == c.network.(ssid := GetString(p, WifiSsid, ""), password := GetString(p, WifiPass, ""))
      && r.backend == c.backend.(baseUrl := GetString(p, BeUrl, ""), token := GetString(p, BeTok, ""),
                                 revision := GetUInt(p, CfgRev, 0))
      && r.upload.apiUrl == (if stored == [] then DefaultUploadUrl(r.backend.baseUrl) else stored)
      && r.upload.apiToken == GetString(p, ApiToken, "")
      && r.upload.autoUpload == GetBool(p, AutoUp, false)
      && r.upload.intervalSec == Constrain(GetUInt(p, UpInt, 10), 1, 3600)
      && r.upload.lastUploadMs == c.upload.lastUploadMs
  {
    var n := Normalise(ReadStored(c));
    RefreshSpec(n.(lowLight := n.lowLight.(score := 0, active := false)));
  }

  /**
   * `loadPrefs` on the camera: the frame size is the key's, quality is in
   * [5, 63], targets equal the loaded values, the tuning is the stored one
   * clamped into range, and the low-light state is reset.
   */
  lemma LoadedCamera(c: Ctx)
    ensures
      var r := Loaded(c);
      var p := c.prefs;
      && r.camera.frameSizeKey == GetString(p, FsKey, "VGA") == r.camera.frameSizeKeyTarget
      && r.camera.frameSize == FramesizeFromKey(r.camera.frameSizeKey) == r.camera.frameSizeTarget
      && r.camera.jpegQuality == Constrain(GetInt(p, JpegQ, 12), 5, 63) == r.camera.jpegQualityTarget
      && r.camera.target == LoadClamp(ReadTuning(p))
      && StoredInRange(r.camera.target)
      && r.lowLight == c.lowLight.(boostEnabled := GetBool(p, LowLight, true), score := 0, active := false)
      && LowLightValid(r.lowLight)
      && (!(c.camera.inited && c.hw.up) ==> r.camera.tuning == r.camera.target && r.hw == c.hw)
  {
    var n := Normalise(ReadStored(c));
    RefreshSpec(n.(lowLight := n.lowLight.(score := 0, active := false)));
    LoadClampSpec(ReadTuning(c.prefs));
  }

  /** With nothing stored, `loadPrefs` reproduces the firmware's built-in defaults. */
  lemma LoadEmptyStore(c: Ctx)
    requires c.prefs == map[]
    ensures
      var r := Loaded(c);
      && r.camera.target == DefaultTuning
      && r.camera.jpegQualityTarget == DefaultCamera.jpegQualityTarget
      && r.camera.frameSizeKeyTarget == DefaultCamera.frameSizeKeyTarget
      && r.camera.frameSizeTarget == DefaultCamera.frameSizeTarget
      && r.upload.(lastUploadMs := 0) == DefaultUpload
      && r.backend.(lastConfigPollMs := 0, pollIntervalSec := 5) == DefaultBackend
      && r.network.(portalMode := false) == DefaultNetwork
      && r.lowLight.(lastLogMs := 0) == DefaultLowLight
  {
    LoadedConfig(c);
    LoadedCamera(c);
    assert EqualsIgnoreCase("VGA", Table[3].key);
    FromKeyMatchingRow("VGA", 3);
  }

  /** Loading from a store with no camera running leaves a valid controller state. */
  lemma LoadedValid(c: Ctx)
    requires !c.camera.inited && !c.hw.up
    ensures Valid(Loaded(c))
  {
    LoadedCamera(c);
  }

  // ---------------------------------------------------------------------------
  // savePrefs followed by loadPrefs

  /** The configuration `savePrefs` persists: the settings and the targets, not the live state. */
  datatype Config = Config(
    ssid: string, password: string, baseUrl: string, token: string, revision: U32,
    apiUrl: string, apiToken: string, autoUpload: bool, intervalSec: U32,
    quality: int, frameSizeKey: string, tuning: SensorTuning, boostEnabled: bool)

  function ConfigOf(c: Ctx): Config {
    Config(c.network.ssid, c.network.password, c.backend.baseUrl, c.backend.token, c.backend.revision,
           c.upload.apiUrl, c.upload.apiToken, c.upload.autoUpload, c.upload.intervalSec,
           c.camera.jpegQualityTarget, c.camera.frameSizeKeyTarget, c.camera.target,
           c.lowLight.boostEnabled)
  }

  /** The configurations `loadPrefs` can produce: every clamp and default already applied. */
  predicate Normalised(c: Ctx) {
    && 5 <= c.camera.jpegQualityTarget <= 63
    && 1 <= c.upload.intervalSec <= 3600
    && StoredInRange(c.camera.target)
    && (c.upload.apiUrl == [] ==> c.backend.baseUrl == [])
  }

  /** The writes store each value under its key, for the first keys written. */
  lemma SaveWritesStore1(
    p: Prefs,
    ssid: PrefValue, pass: PrefValue, url: PrefValue, tok: PrefValue, api: PrefValue,
    apiTok: PrefValue, jpeg: PrefValue, fs: PrefValue, auto: PrefValue, interval: PrefValue,
    rev: PrefValue, awb: PrefValue, wbm: PrefValue, hmr: PrefValue, vfl: PrefValue, bri: PrefValue,
    con: PrefValue, sat: PrefValue, shp: PrefValue, awg: PrefValue, agc: PrefValue, aec: PrefValue,
    gci: PrefValue, ael: PrefValue, lenc: PrefValue, rgm: PrefValue, bpc: PrefValue,
    wpc: PrefValue, dcw: PrefValue, clb: PrefValue, spe: PrefValue, low: PrefValue, q: Prefs)
    requires q == SaveWrites(p, ssid, pass, url, tok, api, apiTok, jpeg, fs, auto, interval, rev, awb, wbm, hmr, vfl, bri, con, sat, shp, awg, agc, aec, gci, ael, lenc, rgm, bpc, wpc, dcw, clb, spe, low)
    ensures WifiSsid in q && q[WifiSsid] == ssid
    ensures WifiPass in q && q[WifiPass] == pass
    ensures BeUrl in q && q[BeUrl] == url
  {
  }

  /** The writes store each value under its key, continued. */
  lemma SaveWritesStore2(
    p: Prefs,
    ssid: PrefValue, pass: PrefValue, url: PrefValue, tok: PrefValue, api: PrefValue,
    apiTok: PrefValue, jpeg: PrefValue, fs: PrefValue, auto: PrefValue, interval: PrefValue,
    rev: PrefValue, awb: PrefValue, wbm: PrefValue, hmr: PrefValue, vfl: PrefValue, bri: PrefValue,
    con: PrefValue, sat: PrefValue, shp: PrefValue, awg: PrefValue, agc: PrefValue, aec: PrefValue,
    gci: PrefValue, ael: PrefValue, lenc: PrefValue, rgm: PrefValue, bpc: PrefValue,
    wpc: PrefValue, dcw: PrefValue, clb: PrefValue, spe: PrefValue, low: PrefValue, q: Prefs)
    requires q == SaveWrites(p, ssid, pass, url, tok, api, apiTok, jpeg, fs, auto, interval, rev, awb, wbm, hmr, vfl, bri, con, sat, shp, awg, agc, aec, gci, ael, lenc, rgm, bpc, wpc, dcw, clb, spe, low)
    ensures BeTok in q && q[BeTok] == tok
    ensures ApiUrl in q && q[ApiUrl] == api
    ensures ApiToken in q && q[ApiToken] == apiTok
  {
  }

  /** The writes store each value under its key, continued. */
  lemma SaveWritesStore3(
    p: Prefs,
    ssid: PrefValue, pass: PrefValue, url: PrefValue, tok: PrefValue, api: PrefValue,
    apiTok: PrefValue, jpeg: PrefValue, fs: PrefValue, auto: PrefValue, interval: PrefValue,
    rev: PrefValue, awb: PrefValue, wbm: PrefValue, hmr: PrefValue, vfl: PrefValue, bri: PrefValue,
    con: PrefValue, sat: PrefValue, shp: PrefValue, awg: PrefValue, agc: PrefValue, aec: PrefValue,
    gci: PrefValue, ael: PrefValue, lenc: PrefValue, rgm: PrefValue, bpc: PrefValue,
    wpc: PrefValue, dcw: PrefValue, clb: PrefValue, spe: PrefValue, low: PrefValue, q: Prefs)
    requires q == SaveWrites(p, ssid, pass, url, tok, api, apiTok, jpeg, fs, auto, interval, rev, awb, wbm, hmr, vfl, bri, con, sat, shp, awg, agc, aec, gci, ael, lenc, rgm, bpc, wpc, dcw, clb, spe, low)
    ensures JpegQ in q && q[JpegQ] == jpeg
    ensures FsKey in q && q[FsKey] == fs
    ensures AutoUp in q && q[AutoUp] == auto
  {
  }

  /** The writes store each value under its key, continued. */
  lemma SaveWritesStore4(
    p: Prefs,
    ssid: PrefValue, pass: PrefValue, url: PrefValue, tok: PrefValue, api: PrefValue,
    apiTok: PrefValue, jpeg: PrefValue, fs: PrefValue, auto: PrefValue, interval: PrefValue,
    rev: PrefValue, awb: PrefValue, wbm: PrefValue, hmr: PrefValue, vfl: PrefValue, bri: PrefValue,
    con: PrefValue, sat: PrefValue, shp: PrefValue, awg: PrefValue, agc: PrefValue, aec: PrefValue,
    gci: PrefValue, ael: PrefValue, lenc: PrefValue, rgm: PrefValue, bpc: PrefValue,
    wpc: PrefValue, dcw: PrefValue, clb: PrefValue, spe: PrefValue, low: PrefValue, q: Prefs)
    requires q == SaveWrites(p, ssid, pass, url, tok, api, apiTok, jpeg, fs, auto, interval, rev, awb, wbm, hmr, vfl, bri, con, sat, shp, awg, agc, aec, gci, ael, lenc, rgm, bpc, wpc, dcw, clb, spe, low)
    ensures UpInt in q && q[UpInt] == interval
    ensures CfgRev in q && q[CfgRev] == rev
    ensures Awb in q && q[Awb] == awb
    ensures Wbm in q && q[Wbm] == wbm
  {
  }

  /** The writes store each value under its key, continued. */
  lemma SaveWritesStore5(
    p: Prefs,
    ssid: PrefValue, pass: PrefValue, url: PrefValue, tok: PrefValue, api: PrefValue,
    apiTok: PrefValue, jpeg: PrefValue, fs: PrefValue, auto: PrefValue, interval: PrefValue,
    rev: PrefValue, awb: PrefValue, wbm: PrefValue, hmr: PrefValue, vfl: PrefValue, bri: PrefValue,
    con: PrefValue, sat: PrefValue, shp: PrefValue, awg: PrefValue, agc: PrefValue, aec: PrefValue,
    gci: PrefValue, ael: PrefValue, lenc: PrefValue, rgm: PrefValue, bpc: PrefValue,
    wpc: PrefValue, dcw: PrefValue, clb: PrefValue, spe: PrefValue, low: PrefValue, q: Prefs)
    requires q == SaveWrites(p, ssid, pass, url, tok, api, apiTok, jpeg, fs, auto, interval, rev, awb, wbm, hmr, vfl, bri, con, sat, shp, awg, agc, aec, gci, ael, lenc, rgm, bpc, wpc, dcw, clb, spe, low)
    ensures Hmr in q && q[Hmr] == hmr
    ensures Vfl in q && q[Vfl] == vfl
    ensures Bri in q && q[Bri] == bri
    ensures Con in q && q[Con] == con
    ensures Sat in q && q[Sat] == sat
  {
  }

  /** The writes store each value under its key, continued. */
  lemma SaveWritesStore6(
    p: Prefs,
    ssid: PrefValue, pass: PrefValue, url: PrefValue, tok: PrefValue, api: PrefValue,
    apiTok: PrefValue, jpeg: PrefValue, fs: PrefValue, auto: PrefValue, interval: PrefValue,
    rev: PrefValue, awb: PrefValue, wbm: PrefValue, hmr: PrefValue, vfl: PrefValue, bri: PrefValue,
    con: PrefValue, sat: PrefValue, shp: PrefValue, awg: PrefValue, agc: PrefValue, aec: PrefValue,
    gci: PrefValue, ael: PrefValue, lenc: PrefValue, rgm: PrefValue, bpc: PrefValue,
    wpc: PrefValue, dcw: PrefValue, clb: PrefValue, spe: PrefValue, low: PrefValue, q: Prefs)
    requires q == SaveWrites(p, ssid, pass, url, tok, api, apiTok, jpeg, fs, auto, interval, rev, awb, wbm, hmr, vfl, bri, con, sat, shp, awg, agc, aec, gci, ael, lenc, rgm, bpc, wpc, dcw, clb, spe, low)
    ensures Shp in q && q[Shp] == shp
    ensures Awg in q && q[Awg] == awg
    ensures Agc in q && q[Agc] == agc
    ensures Aec in q && q[Aec] == aec
    ensures Gci in q && q[Gci] == gci
    ensures Ael in q && q[Ael] == ael
    ensures Lenc in q && q[Lenc] == lenc
    ensures Rgm in q && q[Rgm] == rgm
  {
  }

  /** The writes store each value under its key, continued. */
  lemma SaveWritesStore7(
    p: Prefs,
    ssid: PrefValue, pass: PrefValue, url: PrefValue, tok: PrefValue, api: PrefValue,
    apiTok: PrefValue, jpeg: PrefValue, fs: PrefValue, auto: PrefValue, interval: PrefValue,
    rev: PrefValue, awb: PrefValue, wbm: PrefValue, hmr: PrefValue, vfl: PrefValue, bri: PrefValue,
    con: PrefValue, sat: PrefValue, shp: PrefValue, awg: PrefValue, agc: PrefValue, aec: PrefValue,
    gci: PrefValue, ael: PrefValue, lenc: PrefValue, rgm: PrefValue, bpc: PrefValue,
    wpc: PrefValue, dcw: PrefValue, clb: PrefValue, spe: PrefValue, low: PrefValue, q: Prefs)
    requires q == SaveWrites(p, ssid, pass, url, tok, api, apiTok, jpeg, fs, auto, interval, rev, awb, wbm, hmr, vfl, bri, con, sat, shp, awg, agc, aec, gci, ael, lenc, rgm, bpc, wpc, dcw, clb, spe, low)
    ensures Bpc in q && q[Bpc] == bpc
    ensures Wpc in q && q[Wpc] == wpc
    ensures Dcw in q && q[Dcw] == dcw
    ensures Clb in q && q[Clb] == clb
    ensures Spe in q && q[Spe] == spe
    ensures LowLight in q && q[LowLight] == low
  {
  }

  /** After `savePrefs` every key is present and holds the value written for it. */
  lemma SavedStores(c: Ctx)
    ensures var t := c.camera.target;
      WifiSsid in Saved(c) && Saved(c)[WifiSsid] == PrefString(c.network.ssid)
      && WifiPass in Saved(c) && Saved(c)[WifiPass] == PrefString(c.network.password)
      && BeUrl in Saved(c) && Saved(c)[BeUrl] == PrefString(c.backend.baseUrl)
      && BeTok in Saved(c) && Saved(c)[BeTok] == PrefString(c.backend.token)
      && ApiUrl in Saved(c) && Saved(c)[ApiUrl] == PrefString(c.upload.apiUrl)
      && ApiToken in Saved(c) && Saved(c)[ApiToken] == PrefString(c.upload.apiToken)
      && JpegQ in Saved(c) && Saved(c)[JpegQ] == PrefInt(c.camera.jpegQualityTarget)
      && FsKey in Saved(c) && Saved(c)[FsKey] == PrefString(c.camera.frameSizeKeyTarget)
      && AutoUp in Saved(c) && Saved(c)[AutoUp] == PrefBool(c.upload.autoUpload)
      && UpInt in Saved(c) && Saved(c)[UpInt] == PrefUInt(c.upload.intervalSec)
      && CfgRev in Saved(c) && Saved(c)[CfgRev] == PrefUInt(c.backend.revision)
      && Awb in Saved(c) && Saved(c)[Awb] == PrefBool(t.whitebal)
      && Wbm in Saved(c) && Saved(c)[Wbm] == PrefInt(t.wbMode)
      && Hmr in Saved(c) && Saved(c)[Hmr] == PrefBool(t.hmirror)
      && Vfl in Saved(c) && Saved(c)[Vfl] == PrefBool(t.vflip)
      && Bri in Saved(c) && Saved(c)[Bri] == PrefInt(t.brightness)
      && Con in Saved(c) && Saved(c)[Con] == PrefInt(t.contrast)
      && Sat in Saved(c) && Saved(c)[Sat] == PrefInt(t.saturation)
      && Shp in Saved(c) && Saved(c)[Shp] == PrefInt(t.sharpness)
      && Awg in Saved(c) && Saved(c)[Awg] == PrefBool(t.awbGain)
      && Agc in Saved(c) && Saved(c)[Agc] == PrefBool(t.gainCtrl)
      && Aec in Saved(c) && Saved(c)[Aec] == PrefBool(t.exposureCtrl)
      && Gci in Saved(c) && Saved(c)[Gci] == PrefInt(t.gainceilingIndex)
      && Ael in Saved(c) && Saved(c)[Ael] == PrefInt(t.aeLevel)
      && Lenc in Saved(c) && Saved(c)[Lenc] == PrefBool(t.lensCorr)
      && Rgm in Saved(c) && Saved(c)[Rgm] == PrefBool(t.rawGma)
      && Bpc in Saved(c) && Saved(c)[Bpc] == PrefBool(t.bpcEnabled)
      && Wpc in Saved(c) && Saved(c)[Wpc] == PrefBool(t.wpcEnabled)
      && Dcw in Saved(c) && Saved(c)[Dcw] == PrefBool(t.dcwEnabled)
      && Clb in Saved(c) && Saved(c)[Clb] == PrefBool(t.colorbarEnabled)
      && Spe in Saved(c) && Saved(c)[Spe] == PrefInt(t.specialEffect)
      && LowLight in Saved(c) && Saved(c)[LowLight] == PrefBool(c.lowLight.boostEnabled)
  {
    var t := c.camera.target;
    var q := Saved(c);
    SaveWritesStore1(c.prefs,
        PrefString(c.network.ssid), PrefString(c.network.password), PrefString(c.backend.baseUrl),
        PrefString(c.backend.token), PrefString(c.upload.apiUrl), PrefString(c.upload.apiToken),
        PrefInt(c.camera.jpegQualityTarget), PrefString(c.camera.frameSizeKeyTarget),
        PrefBool(c.upload.autoUpload), PrefUInt(c.upload.intervalSec), PrefUInt(c.backend.revision),
        PrefBool(t.whitebal), PrefInt(t.wbMode), PrefBool(t.hmirror), PrefBool(t.vflip),
        PrefInt(t.brightness), PrefInt(t.contrast), PrefInt(t.saturation), PrefInt(t.sharpness),
        PrefBool(t.awbGain), PrefBool(t.gainCtrl), PrefBool(t.exposureCtrl),
        PrefInt(t.gainceilingIndex), PrefInt(t.aeLevel), PrefBool(t.lensCorr), PrefBool(t.rawGma),
        PrefBool(t.bpcEnabled), PrefBool(t.wpcEnabled), PrefBool(t.dcwEnabled),
        PrefBool(t.colorbarEnabled), PrefInt(t.specialEffect), PrefBool(c.lowLight.boostEnabled), q);
    SaveWritesStore2(c.prefs,
        PrefString(c.network.ssid), PrefString(c.network.password), PrefString(c.backend.baseUrl),
        PrefString(c.backend.token), PrefString(c.upload.apiUrl), PrefString(c.upload.apiToken),
        PrefInt(c.camera.jpegQualityTarget), PrefString(c.camera.frameSizeKeyTarget),
        PrefBool(c.upload.autoUpload), PrefUInt(c.upload.intervalSec), PrefUInt(c.backend.revision),
        PrefBool(t.whitebal), PrefInt(t.wbMode), PrefBool(t.hmirror), PrefBool(t.vflip),
        PrefInt(t.brightness), PrefInt(t.contrast), PrefInt(t.saturation), PrefInt(t.sharpness),
        PrefBool(t.awbGain), PrefBool(t.gainCtrl), PrefBool(t.exposureCtrl),
        PrefInt(t.gainceilingIndex), PrefInt(t.aeLevel), PrefBool(t.lensCorr), PrefBool(t.rawGma),
        PrefBool(t.bpcEnabled), PrefBool(t.wpcEnabled), PrefBool(t.dcwEnabled),
        PrefBool(t.colorbarEnabled), PrefInt(t.specialEffect), PrefBool(c.lowLight.boostEnabled), q);
    SaveWritesStore3(c.prefs,
        PrefString(c.network.ssid), PrefString(c.network.password), PrefString(c.backend.baseUrl),
        PrefString(c.backend.token), PrefString(c.upload.apiUrl), PrefString(c.upload.apiToken),
        PrefInt(c.camera.jpegQualityTarget), PrefString(c.camera.frameSizeKeyTarget),
        PrefBool(c.upload.autoUpload), PrefUInt(c.upload.intervalSec), PrefUInt(c.backend.revision),
        PrefBool(t.whitebal), PrefInt(t.wbMode), PrefBool(t.hmirror), PrefBool(t.vflip),
        PrefInt(t.brightness), PrefInt(t.contrast), PrefInt(t.saturation), PrefInt(t.sharpness),
        PrefBool(t.awbGain), PrefBool(t.gainCtrl), PrefBool(t.exposureCtrl),
        PrefInt(t.gainceilingIndex), PrefInt(t.aeLevel), PrefBool(t.lensCorr), PrefBool(t.rawGma),
        PrefBool(t.bpcEnabled), PrefBool(t.wpcEnabled), PrefBool(t.dcwEnabled),
        PrefBool(t.colorbarEnabled), PrefInt(t.specialEffect), PrefBool(c.lowLight.boostEnabled), q);
    SaveWritesStore4(c.prefs,
        PrefString(c.network.ssid), PrefString(c.network.password), PrefString(c.backend.baseUrl),
        PrefString(c.backend.token), PrefString(c.upload.apiUrl), PrefString(c.upload.apiToken),
        PrefInt(c.camera.jpegQualityTarget), PrefString(c.camera.frameSizeKeyTarget),
        PrefBool(c.upload.autoUpload), PrefUInt(c.upload.intervalSec), PrefUInt(c.backend.revision),
        PrefBool(t.whitebal), PrefInt(t.wbMode), PrefBool(t.hmirror), PrefBool(t.vflip),
        PrefInt(t.brightness), PrefInt(t.contrast), PrefInt(t.saturation), PrefInt(t.sharpness),
        PrefBool(t.awbGain), PrefBool(t.gainCtrl), PrefBool(t.exposureCtrl),
        PrefInt(t.gainceilingIndex), PrefInt(t.aeLevel), PrefBool(t.lensCorr), PrefBool(t.rawGma),
        PrefBool(t.bpcEnabled), PrefBool(t.wpcEnabled), PrefBool(t.dcwEnabled),
        PrefBool(t.colorbarEnabled), PrefInt(t.specialEffect), PrefBool(c.lowLight.boostEnabled), q);
    SaveWritesStore5(c.prefs,
        PrefString(c.network.ssid), PrefString(c.network.password), PrefString(c.backend.baseUrl),
        PrefString(c.backend.token), PrefString(c.upload.apiUrl), PrefString(c.upload.apiToken),
        PrefInt(c.camera.jpegQualityTarget), PrefString(c.camera.frameSizeKeyTarget),
        PrefBool(c.upload.autoUpload), PrefUInt(c.upload.intervalSec), PrefUInt(c.backend.revision),
        PrefBool(t.whitebal), PrefInt(t.wbMode), PrefBool(t.hmirror), PrefBool(t.vflip),
        PrefInt(t.brightness), PrefInt(t.contrast), PrefInt(t.saturation), PrefInt(t.sharpness),
        PrefBool(t.awbGain), PrefBool(t.gainCtrl), PrefBool(t.exposureCtrl),
        PrefInt(t.gainceilingIndex), PrefInt(t.aeLevel), PrefBool(t.lensCorr), PrefBool(t.rawGma),
        PrefBool(t.bpcEnabled), PrefBool(t.wpcEnabled), PrefBool(t.dcwEnabled),
        PrefBool(t.colorbarEnabled), PrefInt(t.specialEffect), PrefBool(c.lowLight.boostEnabled), q);
    SaveWritesStore6(c.prefs,
        PrefString(c.network.ssid), PrefString(c.network.password), PrefString(c.backend.baseUrl),
        PrefString(c.backend.token), PrefString(c.upload.apiUrl), PrefString(c.upload.apiToken),
        PrefInt(c.camera.jpegQualityTarget), PrefString(c.camera.frameSizeKeyTarget),
        PrefBool(c.upload.autoUpload), PrefUInt(c.upload.intervalSec), PrefUInt(c.backend.revision),
        PrefBool(t.whitebal), PrefInt(t.wbMode), PrefBool(t.hmirror), PrefBool(t.vflip),
        PrefInt(t.brightness), PrefInt(t.contrast), PrefInt(t.saturation), PrefInt(t.sharpness),
        PrefBool(t.awbGain), PrefBool(t.gainCtrl), PrefBool(t.exposureCtrl),
        PrefInt(t.gainceilingIndex), PrefInt(t.aeLevel), PrefBool(t.lensCorr), PrefBool(t.rawGma),
        PrefBool(t.bpcEnabled), PrefBool(t.wpcEnabled), PrefBool(t.dcwEnabled),
        PrefBool(t.colorbarEnabled), PrefInt(t.specialEffect), PrefBool(c.lowLight.boostEnabled), q);
    SaveWritesStore7(c.prefs,
        PrefString(c.network.ssid), PrefString(c.network.password), PrefString(c.backend.baseUrl),
        PrefString(c.backend.token), PrefString(c.upload.apiUrl), PrefString(c.upload.apiToken),
        PrefInt(c.camera.jpegQualityTarget), PrefString(c.camera.frameSizeKeyTarget),
        PrefBool(c.upload.autoUpload), PrefUInt(c.upload.intervalSec), PrefUInt(c.backend.revision),
        PrefBool(t.whitebal), PrefInt(t.wbMode), PrefBool(t.hmirror), PrefBool(t.vflip),
        PrefInt(t.brightness), PrefInt(t.contrast), PrefInt(t.saturation), PrefInt(t.sharpness),
        PrefBool(t.awbGain), PrefBool(t.gainCtrl), PrefBool(t.exposureCtrl),
        PrefInt(t.gainceilingIndex), PrefInt(t.aeLevel), PrefBool(t.lensCorr), PrefBool(t.rawGma),
        PrefBool(t.bpcEnabled), PrefBool(t.wpcEnabled), PrefBool(t.dcwEnabled),
        PrefBool(t.colorbarEnabled), PrefInt(t.specialEffect), PrefBool(c.lowLight.boostEnabled), q);
  }

  /** Reading back a store that holds a snapshot's twenty fields gives the snapshot back. */
  lemma ReadTuningBack(p: Prefs, t: SensorTuning)
    requires Awb in p && p[Awb] == PrefBool(t.whitebal) && Wbm in p && p[Wbm] == PrefInt(t.wbMode)
    requires Hmr in p && p[Hmr] == PrefBool(t.hmirror) && Vfl in p && p[Vfl] == PrefBool(t.vflip)
    requires Bri in p && p[Bri] == PrefInt(t.brightness) && Con in p && p[Con] == PrefInt(t.contrast)
    requires Sat in p && p[Sat] == PrefInt(t.saturation) && Shp in p && p[Shp] == PrefInt(t.sharpness)
    requires Awg in p && p[Awg] == PrefBool(t.awbGain) && Agc in p && p[Agc] == PrefBool(t.gainCtrl)
    requires Aec in p && p[Aec] == PrefBool(t.exposureCtrl) && Gci in p && p[Gci] == PrefInt(t.gainceilingIndex)
    requires Ael in p && p[Ael] == PrefInt(t.aeLevel) && Lenc in p && p[Lenc] == PrefBool(t.lensCorr)
    requires Rgm in p && p[Rgm] == PrefBool(t.rawGma) && Bpc in p && p[Bpc] == PrefBool(t.bpcEnabled)
    requires Wpc in p && p[Wpc] == PrefBool(t.wpcEnabled) && Dcw in p && p[Dcw] == PrefBool(t.dcwEnabled)
    requires Clb in p && p[Clb] == PrefBool(t.colorbarEnabled) && Spe in p && p[Spe] == PrefInt(t.specialEffect)
    ensures ReadTuning(p) == t
  {
  }

  /** Reading a saved store gives back the saved target tuning. */
  lemma SavedTuning(c: Ctx)
    ensures ReadTuning(Saved(c)) == c.camera.target
  {
    SavedStores(c);
    ReadTuningBack(Saved(c), c.camera.target);
  }

  /** Reading a saved store gives back the saved settings, targets and boost switch. */
  lemma SavedSettings(c: Ctx)
    ensures
      var p := Saved(c);
      && GetString(p, WifiSsid, "") == c.network.ssid
      && GetString(p, WifiPass, "") == c.network.password
      && GetString(p, BeUrl, "") == c.backend.baseUrl
      && GetString(p, BeTok, "") == c.backend.token
      && GetUInt(p, CfgRev, 0) == c.backend.revision
      && GetString(p, ApiUrl, "") == c.upload.apiUrl
      && GetString(p, ApiToken, "") == c.upload.apiToken
      && GetBool(p, AutoUp, false) == c.upload.autoUpload
      && GetUInt(p, UpInt, 10) == c.upload.intervalSec
      && GetInt(p, JpegQ, 12) == c.camera.jpegQualityTarget
      && GetString(p, FsKey, "VGA") == c.camera.frameSizeKeyTarget
      && GetBool(p, LowLight, true) == c.lowLight.boostEnabled
  {
    SavedStores(c);
  }

  /**
   * A save followed by a load gives back exactly the saved configuration when
   * it is normalised, and the camera then runs at the saved targets.
   */
  lemma SaveLoadRoundTrip(c: Ctx)
    requires Normalised(c)
    ensures ConfigOf(Loaded(c.(prefs := Saved(c)))) == ConfigOf(c)
  {
    var s := c.(prefs := Saved(c));
    SavedSettings(c);
    SavedTuning(c);
    LoadedConfig(s);
    LoadedCamera(s);
    LoadClampKeeps(c.camera.target);
  }

  /** What `loadPrefs` leaves is normalised. */
  lemma LoadedNormalised(c: Ctx)
    ensures Normalised(Loaded(c))
  {
    LoadedConfig(c);
    LoadedCamera(c);
  }

  /**
   * Saving what was loaded and loading it again changes nothing: the boot
   * configuration is stable across a save.
   */
  lemma LoadSaveLoad(c: Ctx)
    ensures
      var r := Loaded(c);
      ConfigOf(Loaded(r.(prefs := Saved(r)))) == ConfigOf(r)
  {
    LoadedNormalised(c);
    SaveLoadRoundTrip(Loaded(c));
  }

  // ---------------------------------------------------------------------------
  // getDeviceIdHex

  /** The value of one upper-case hexadecimal digit. */
  function HexDigitValue(ch: char): nat {
    if '0' <= ch <= '9' then ch as int - '0' as int
    else if 'A' <= ch <= 'F' then ch as int - 'A' as int + 10
    else 0
  }

  /** The number an upper-case hexadecimal string denotes, most significant digit first. */
  function HexValue(s: string): nat {
    if s == [] then 0 else HexValue(s[..|s| - 1]) * 16 + HexDigitValue(s[|s| - 1])
  }

  predicate IsUpperHex(s: string) {
    forall i | 0 <= i < |s| :: s[i] in HexDigits
  }

  function Pow16(k: nat): nat {
    if k == 0 then 1 else 16 * Pow16(k - 1)
  }

  lemma DigitValue(d: nat)
    requires d < 16
    ensures HexDigitValue(HexDigits[d]) == d
  {
  }

  /** `Hex` prints upper-case digits that read back as the number, in at most `k` digits below 16^k. */
  lemma {:induction false} HexSpec(n: nat, k: nat)
    ensures IsUpperHex(Hex(n)) && HexValue(Hex(n)) == n
    ensures 1 <= |Hex(n)|
    ensures 1 <= k && n < Pow16(k) ==> |Hex(n)| <= k
  {
    if n < 16 {
      DigitValue(n);
      assert Hex(n)[..0] == [];
    } else {
      var s := Hex(n / 16);
      DigitValue(n % 16);
      HexSpec(n / 16, if k == 0 then 0 else k - 1);
      assert Hex(n)[..|Hex(n)| - 1] == s;
    }
  }

  lemma {:induction false} ZerosValue(k: nat)
    ensures HexValue(seq(k, _ => '0')) == 0
  {
    if k > 0 {
      assert seq(k, _ => '0')[..k - 1] == seq(k - 1, _ => '0');
      ZerosValue(k - 1);
    }
  }

  /** Leading zeros do not change the value. */
  lemma {:induction false} LeadingZeros(k: nat, s: string)
    ensures HexValue(seq(k, _ => '0') + s) == HexValue(s)
  {
    var z := seq(k, _ => '0');
    if s == [] {
      assert z + s == z;
      ZerosValue(k);
    } else {
      var u := z + s;
      assert u[..|u| - 1] == z + s[..|s| - 1];
      assert u[|u| - 1] == s[|s| - 1];
      LeadingZeros(k, s[..|s| - 1]);
    }
  }

  /**
   * The device id is the MAC address in upper-case hexadecimal, padded with
   * zeros to twelve digits: it reads back as the MAC, and it is exactly twelve
   * digits long for every 48-bit address.
   */
  lemma DeviceIdSpec(mac: nat)
    requires mac < 0x1_0000_0000_0000_0000
    ensures IsUpperHex(DeviceIdHex(mac))
    ensures HexValue(DeviceIdHex(mac)) == mac
    ensures 12 <= |DeviceIdHex(mac)| <= 16
    ensures mac < 0x1_0000_0000_0000 ==> |DeviceIdHex(mac)| == 12
  {
    var h := Hex(mac);
    assert Pow16(12) == 0x1_0000_0000_0000;
    assert Pow16(16) == 0x1_0000_0000_0000_0000;
    if mac < 0x1_0000_0000_0000 {
      HexSpec(mac, 12);
    } else {
      HexSpec(mac, 16);
    }
    PadZerosSpec(h, 12);
  }

  /** Padding keeps the digits upper-case hexadecimal and their value, and makes them at least `width` long. */
  lemma PadZerosSpec(s: string, width: nat)
    ensures IsUpperHex(s) ==> IsUpperHex(PadZeros(s, width))
    ensures HexValue(PadZeros(s, width)) == HexValue(s)
    ensures |PadZeros(s, width)| == if |s| >= width then |s| else width
  {
    if |s| < width {
      LeadingZeros(width - |s|, s);
      var r := seq(width - |s|, _ => '0') + s;
      if IsUpperHex(s) {
        forall i | 0 <= i < |r|
          ensures r[i] in HexDigits
        {
          if i < width - |s| { assert r[i] == '0'; } else { assert r[i] == s[i - (width - |s|)]; }
        }
      }
    }
  }
}
