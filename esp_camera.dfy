/**
 * The part of the esp32-camera driver the firmware talks to, as a value:
 * whether the camera is initialised, the last value written through each
 * `sensor_t` setter, the sensor's exposure/gain status readings, and scripted
 * outcomes for `esp_camera_init` and `esp_camera_fb_get`. Every driver call is
 * appended to an event log, so the order of inits, delays and grabs can be
 * stated. `esp_camera_sensor_get()` is non-null exactly when the camera is up.
 */
module EspCamera {

  /** C fixed-width unsigned integers. */
  type U8 = x: int | 0 <= x < 0x100
  type U16 = x: int | 0 <= x < 0x1_0000
  type U32 = x: int | 0 <= x < 0x1_0000_0000

  /** Unsigned 32-bit subtraction (`unsigned long` on the ESP32): wraps modulo 2^32. */
  function SubU32(a: U32, b: U32): (r: U32)
    ensures a >= b ==> r == a - b
    ensures a < b ==> r == a - b + 0x1_0000_0000
  {
    (a - b) % 0x1_0000_0000
  }

  /** Unsigned 8-bit increment (`uint8_t` `++`): 255 wraps to 0. */
  function IncU8(x: U8): (r: U8)
    ensures x < 255 ==> r == x + 1
    ensures x == 255 ==> r == 0
  {
    (x + 1) % 0x100
  }

  /** `framesize_t`: the driver's frame sizes, numbered in increasing resolution. */
  type FrameSize = nat
  const FRAMESIZE_96X96: FrameSize := 0
  const FRAMESIZE_QQVGA: FrameSize := 1
  const FRAMESIZE_QCIF: FrameSize := 2
  const FRAMESIZE_HQVGA: FrameSize := 3
  const FRAMESIZE_240X240: FrameSize := 4
  const FRAMESIZE_QVGA: FrameSize := 5
  const FRAMESIZE_CIF: FrameSize := 6
  const FRAMESIZE_HVGA: FrameSize := 7
  const FRAMESIZE_VGA: FrameSize := 8
  const FRAMESIZE_SVGA: FrameSize := 9
  const FRAMESIZE_XGA: FrameSize := 10
  const FRAMESIZE_HD: FrameSize := 11
  const FRAMESIZE_SXGA: FrameSize := 12
  const FRAMESIZE_UXGA: FrameSize := 13

  /** `gainceiling_t`. */
  const GAINCEILING_2X := 0
  const GAINCEILING_4X := 1
  const GAINCEILING_8X := 2
  const GAINCEILING_16X := 3
  const GAINCEILING_32X := 4
  const GAINCEILING_64X := 5
  const GAINCEILING_128X := 6

  /** The last value written through each sensor setter the firmware uses. */
  datatype SensorRegs = SensorRegs(
    whitebal: int, wbMode: int, hmirror: int, vflip: int,
    brightness: int, contrast: int, saturation: int, sharpness: int,
    awbGain: int, gainCtrl: int, exposureCtrl: int, gainceiling: int,
    aeLevel: int, lenc: int, rawGma: int, bpc: int, wpc: int, dcw: int,
    colorbar: int, specialEffect: int, aec2: int,
    frameSize: FrameSize, quality: int)

  /** One call into the driver, as it appears in the log. */
  datatype Event =
    | Init(xclkHz: int, frameSize: FrameSize, quality: int, ok: bool)
    | Deinit
    | Delay(ms: nat)
    | FrameGet(frameSize: FrameSize, ok: bool)
    | FrameReturn

  /**
   * The driver. `initResults` and `grabResults` are the outcomes the hardware
   * will give to the next `esp_camera_init` / `esp_camera_fb_get` calls (an
   * exhausted script means failure); `aec` and `agc` are the sensor status
   * readings; `held` counts frame buffers handed out and not yet returned.
   */
  datatype Driver = Driver(
    up: bool,
    regs: SensorRegs,
    aec: U16,
    agc: U8,
    initResults: seq<bool>,
    grabResults: seq<bool>,
    log: seq<Event>,
    held: nat)

  /** `esp_camera_init`: consumes one scripted outcome; the camera is up iff it succeeded. */
  function CameraInit(d: Driver, xclkHz: int, fs: FrameSize, quality: int): (r: (Driver, bool))
    ensures r.0.up == r.1
    ensures r.1 ==> d.initResults != [] && d.initResults[0]
    ensures r.0.log == d.log + [Init(xclkHz, fs, quality, r.1)]
    ensures r.0.regs == d.regs && r.0.grabResults == d.grabResults && r.0.held == d.held
  {
    var ok := d.initResults != [] && d.initResults[0];
    var rest := if d.initResults == [] then [] else d.initResults[1..];
    (d.(up := ok, initResults := rest, log := d.log + [Init(xclkHz, fs, quality, ok)]), ok)
  }

  /** `esp_camera_deinit`. */
  function CameraDeinit(d: Driver): (r: Driver)
    ensures !r.up && r.log == d.log + [Deinit]
  {
    d.(up := false, log := d.log + [Deinit])
  }

  /** Arduino `delay(ms)`: no effect on the driver besides being recorded. */
  function Sleep(d: Driver, ms: nat): (r: Driver)
    ensures r.log == d.log + [Delay(ms)]
  {
    d.(log := d.log + [Delay(ms)])
  }

  /**
   * `esp_camera_fb_get`: NULL when the camera is down; otherwise consumes one
   * scripted outcome, and a frame at the sensor's current frame size is handed out.
   */
  function FbGet(d: Driver): (r: (Driver, bool))
    ensures r.1 ==> d.up && r.0.held == d.held + 1
    ensures !r.1 ==> r.0.held == d.held
    ensures r.0.log == d.log + [FrameGet(d.regs.frameSize, r.1)]
    ensures r.0.up == d.up && r.0.regs == d.regs && r.0.initResults == d.initResults
  {
    if !d.up then (d.(log := d.log + [FrameGet(d.regs.frameSize, false)]), false)
    else
      var ok := d.grabResults != [] && d.grabResults[0];
      var rest := if d.grabResults == [] then [] else d.grabResults[1..];
      (d.(grabResults := rest, held := if ok then d.held + 1 else d.held,
          log := d.log + [FrameGet(d.regs.frameSize, ok)]), ok)
  }

  /** `esp_camera_fb_return`: one buffer goes back to the driver. */
  function FbReturn(d: Driver): (r: Driver)
    requires d.held > 0
    ensures r.held == d.held - 1 && r.log == d.log + [FrameReturn]
  {
    d.(held := d.held - 1, log := d.log + [FrameReturn])
  }

  /**
   * Of the next `n` calls drawing on `script`, the position of the first that
   * succeeds, or `n` when none does (an exhausted script fails every call).
   */
  function FirstSuccess(script: seq<bool>, n: nat): (j: nat)
    ensures j <= n
    ensures j < n ==> j < |script| && script[j]
    ensures forall k | 0 <= k < j && k < |script| :: !script[k]
  {
    if n == 0 then 0
    else if script != [] && script[0] then 0
    else 1 + FirstSuccess(if script == [] then [] else script[1..], n - 1)
  }
}
