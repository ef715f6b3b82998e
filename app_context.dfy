/**
 * The firmware's single global context (`app()`): the state structs with their
 * default values, the preference store, and the camera driver. The structs
 * are values; the context itself is an object whose fields the firmware's
 * routines reassign one at a time.
 */
module AppContext {
  import opened EspCamera

  /** One sensor tuning snapshot: the target the user asked for, or the active one applied. */
  datatype SensorTuning = SensorTuning(
    whitebal: bool, wbMode: int, hmirror: bool, vflip: bool,
    brightness: int, contrast: int, saturation: int, sharpness: int,
    awbGain: bool, gainCtrl: bool, exposureCtrl: bool,
    gainceilingIndex: U8, aeLevel: int,
    lensCorr: bool, rawGma: bool, bpcEnabled: bool, wpcEnabled: bool, dcwEnabled: bool,
    colorbarEnabled: bool, specialEffect: int)

  const DefaultTuning := SensorTuning(
    true, 0, false, false,
    0, 1, 1, 1,
    true, true, true,
    4, 0,
    true, true, true, true, true,
    false, 0)

  datatype CameraState = CameraState(
    frameSize: FrameSize, frameSizeTarget: FrameSize,
    frameSizeKey: string, frameSizeKeyTarget: string,
    jpegQuality: int, jpegQualityTarget: int,
    lastUsedFrameSizeKey: string,
    inited: bool,
    currentXclkHz: int,
    failedGrabStreak: U8,
    lastReinitMs: U32,
    tuning: SensorTuning,
    target: SensorTuning)

  const DefaultCamera := CameraState(
    FRAMESIZE_VGA, FRAMESIZE_VGA, "VGA", "VGA", 12, 12, "VGA",
    false, 20000000, 0, 0, DefaultTuning, DefaultTuning)

  datatype NetworkState = NetworkState(ssid: string, password: string, portalMode: bool)

  const DefaultNetwork := NetworkState("", "", false)

  datatype BackendState = BackendState(
    baseUrl: string, token: string, revision: U32, lastConfigPollMs: U32, pollIntervalSec: U32)

  const DefaultBackend := BackendState("", "", 0, 0, 5)

  datatype UploadState = UploadState(
    apiUrl: string, apiToken: string, autoUpload: bool, intervalSec: U32, lastUploadMs: U32)

  const DefaultUpload := UploadState("", "", false, 10, 0)

  datatype LowLightState = LowLightState(boostEnabled: bool, active: bool, score: U8, lastLogMs: U32)

  const DefaultLowLight := LowLightState(true, false, 0, 0)

  datatype HttpState = HttpState(lastStatus: int, lastError: string)

  const DefaultHttp := HttpState(0, "-")

  /** A value in the preference store, tagged with the type it was written as. */
  datatype PrefValue =
    | PrefString(s: string)
    | PrefInt(i: int)
    | PrefUInt(u: U32)
    | PrefBool(b: bool)

  /**
   * The keys of the "cfg" preference namespace the firmware reads and writes.
   * `ConfigStorage.KeyName` gives the string each one is stored under; the
   * names are pairwise distinct, so the store is modelled as a map on this type.
   */
  datatype PrefKey =
    | WifiSsid | WifiPass | BeUrl | BeTok | ApiUrl | ApiToken
    | JpegQ | FsKey | AutoUp | UpInt | CfgRev
    | Awb | Wbm | Hmr | Vfl | Bri | Con | Sat | Shp | Awg | Agc | Aec
    | Gci | Ael | Lenc | Rgm | Bpc | Wpc | Dcw | Clb | Spe | LowLight

  type Prefs = map<PrefKey, PrefValue>

  /** The whole context as a value. */
  datatype Ctx = Ctx(
    network: NetworkState,
    backend: BackendState,
    upload: UploadState,
    camera: CameraState,
    lowLight: LowLightState,
    http: HttpState,
    prefs: Prefs,
    hw: Driver)

  /** The context at power-on, before anything has run, over a given store and driver. */
  function Initial(prefs: Prefs, hw: Driver): Ctx {
    Ctx(DefaultNetwork, DefaultBackend, DefaultUpload, DefaultCamera, DefaultLowLight,
        DefaultHttp, prefs, hw)
  }

  /** `FirmwareState`: the mutable global context. */
  class FirmwareState {
    var network: NetworkState
    var backend: BackendState
    var upload: UploadState
    var camera: CameraState
    var lowLight: LowLightState
    var http: HttpState
    var prefs: Prefs
    var hw: Driver

    function Snap(): Ctx
      reads this
    {
      Ctx(network, backend, upload, camera, lowLight, http, prefs, hw)
    }

    /** Power-on: every struct at its default, over the given store and (powered-down) driver. */
    constructor(prefs0: Prefs, hw0: Driver)
      requires !hw0.up
      ensures Snap() == Initial(prefs0, hw0)
    {
      network := DefaultNetwork;
      backend := DefaultBackend;
      upload := DefaultUpload;
      camera := DefaultCamera;
      lowLight := DefaultLowLight;
      http := DefaultHttp;
      prefs := prefs0;
      hw := hw0;
    }
  }
}
