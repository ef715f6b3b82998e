/**
 * The camera and upload settings the backend reads out of a device row, as
 * both the admin view (`routes/admin.py`) and the device's config response
 * (`routes/device.py`) report them.
 */
module Tuning {

  datatype Tuning = Tuning(
    jpegQuality: int, uploadIntervalSec: int, autoUpload: bool,
    whitebal: bool, wbMode: int, hmirror: bool, vflip: bool,
    brightness: int, contrast: int, saturation: int, sharpness: int,
    awbGain: bool, gainCtrl: bool, exposureCtrl: bool, gainceiling: int, aeLevel: int,
    lensCorr: bool, rawGma: bool, bpc: bool, wpc: bool, dcw: bool, colorbar: bool,
    specialEffect: int, lowLightBoost: bool)

  /**
   * The ranges both readers clamp to: brightness, contrast, saturation,
   * sharpness and AE level in [-2, 2], white-balance mode in [0, 4], gain
   * ceiling in [0, 5], special effect in [0, 6].
   */
  predicate InRange(t: Tuning) {
    && -2 <= t.brightness <= 2 && -2 <= t.contrast <= 2
    && -2 <= t.saturation <= 2 && -2 <= t.sharpness <= 2
    && -2 <= t.aeLevel <= 2
    && 0 <= t.wbMode <= 4
    && 0 <= t.gainceiling <= 5
    && 0 <= t.specialEffect <= 6
  }
}
