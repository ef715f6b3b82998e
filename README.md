# Chihuahua camera: a verified Dafny model

Chihuahua is a small camera system. An ESP32-CAM board takes JPEG frames and
uploads them to a Python (FastAPI) backend. The backend stores each image, can
ask an Ollama server to describe it, and serves each device the camera
settings an administrator chose. This project models the parts of both sides
that make decisions. It proves what those parts promise.

**Firmware**
- `firmware/firmware/CameraController.cpp` is the camera controller:
  - the tuning clamp and the sensor writes;
  - the low-light hysteresis controller and its boosted profile;
  - the 20 / 16.5 / 10 MHz clock ladder and the step-down re-init;
  - reconciliation of the running camera with its targets;
  - the resilient grab, with smaller fallback frame sizes and a debounced re-init.
- `AppContext.h` holds the state structs and their power-on defaults.
- `ConfigStorage.cpp` covers the frame-size table, `defaultUploadUrl`, `loadPrefs` / `savePrefs` over a key-to-value store, and the device id text.
- `BackendClient.cpp` covers `joinUrl`, the hand-written JSON field scanners, how `fetchConfigFromBackend` applies a config body, `uploadFrameToApi` and the frame-buffer discipline of `captureAndUploadOnce`.

**Backend**
- `routes/upload.py`:
  - the upload authorization decision;
  - the recent-image history;
  - the Ollama endpoint path;
  - the analysis request (the settings, the prompt substitution, the counts sent);
  - how the reply text is taken out.
- `routes/admin.py`:
  - the value coercions;
  - the health-check URL;
  - the admin view of a device row;
  - the sparse settings patch of `update_device_config`.
- `routes/device.py`: `_clamp`, `_clean_str`, `_clean_int` and the config response of `get_config`.
- `core/storage.py`: file-name sanitising and the stored name and URL.
- `core/auth.py`: bearer parsing and `require_bearer`.

## How the model is built

**The firmware's global context.** The `app()` context becomes the class
`AppContext.FirmwareState`. Its fields are the structs of `AppContext.h` as
datatypes, plus two more fields:
- `prefs`: the NVS store, as a map from key to stored value;
- `hw`: the camera driver.

`Snap()` reads the whole context as the value `AppContext.Ctx`.

**The firmware routines.** Every routine of the three firmware files is a
method that `modifies ctx` and ensures
`ctx.Snap() == Spec(old(ctx.Snap()))`. `Spec` is a function in `CameraSpec`,
`ConfigStorage` or `BackendClient`. The lemmas in these modules state what the
routines promise about those functions:
- `CameraLemmas`;
- `CameraLifecycle`;
- `ConfigLemmas`;
- `BackendLemmas`.

An invariant `CameraSpec.Valid` is preserved by every routine. It covers:
- the low-light state: score in [0, 6] and `active == (score >= 3)`;
- that the sensor registers match the active snapshot when the camera runs;
- that the driver is up exactly when the camera is marked initialised.

**The camera driver (`EspCamera.Driver`).** It has:
- an up flag;
- the sensor's register file;
- scripted outcomes for `esp_camera_init` and `esp_camera_fb_get`;
- a log of driver calls (init, deinit, delay, frame get, frame return);
- the count of frame buffers handed out and not yet returned.

Frame sizes are the ordinals of the esp32-camera `framesize_t` enum, so the
fallback's `fs >= wanted` is an integer comparison. `FrameSizes.TableIncreasing`
proves the table's order agrees with it.

**Integer widths.** `millis()` differences wrap modulo 2^32 (`EspCamera.SubU32`).
`failedGrabStreak` wraps modulo 256 (`EspCamera.IncU8`). `String::toInt`
saturates at the 32-bit `long` bounds (`BackendClient.ToInt`).

**The backend.** Python values read from a SQLite row are `PyValues.PyValue`
(None, int or str), and a row is a map from column name to value. The helpers
are functions. `collect_last_images` is a method with a loop proved against
`Upload.RecentImages`.

## Model

| member | source | states |
|---|---|---|
| CameraSpec.Constrain | firmware/firmware/CameraController.cpp:82-88 | Arduino `constrain`: the result lies in [lo, hi], equals x in range, lo below, hi above |
| CameraSpec.GainceilingFromIndex | firmware/firmware/CameraController.cpp:39-53 | the ceiling lies in 2X..64X; an index in 0..5 maps to its own entry, a negative one to 2X, a larger one to 64X |
| CameraSpec.ScoreStep | firmware/firmware/CameraController.cpp:140-149 | a boost request (aec >= 850 or gain >= 24) raises the score by one, capped at 6; anything else, the release zone and the zone between alike, lowers it by one, floored at 0; it moves by at most one, and a score of at most 6 stays at most 6 |
| CameraSpec.NextXclk | firmware/firmware/CameraController.cpp:256-258 | the next rung never exceeds the current clock, is strictly lower and at least 10 MHz above 10 MHz, and is the clock itself at 10 MHz or below |
| CameraController.ApplyLowLightProfile | firmware/firmware/CameraController.cpp:55-73 | the routine's new context is `ApplyProfile` of the old one (the profile lemmas below) |
| CameraController.ClampTarget | firmware/firmware/CameraController.cpp:82-90 | the active snapshot computed from a target is `ClampTuning(target)` |
| CameraController.ApplyManualSensorParams | firmware/firmware/CameraController.cpp:75-133 | the new context is `ApplyManual` of the old one |
| CameraController.ApplyAdvancedParams | firmware/firmware/CameraController.cpp:174-182 | the new context is `ApplyAdvanced` of the old one: the manual pass, then the boosted profile when boost is on and active |
| CameraController.RefreshLowLightProfile | firmware/firmware/CameraController.cpp:184-191 | the new context is `Refresh` of the old one |
| CameraController.ResetLowLightState | firmware/firmware/CameraController.cpp:193-198 | the new context is `Reset` of the old one |
| CameraController.UpdateLowLightObserver | firmware/firmware/CameraController.cpp:135-164 | the new context is `Observe` of the old one and the two readings |
| CameraController.EvaluateLowLightMetrics | firmware/firmware/CameraController.cpp:166-172 | the new context is `Evaluate` of the old one |
| CameraController.InitCameraWithXclk | firmware/firmware/CameraController.cpp:200-251 | new context and result are `InitWithXclk` of the old context and the clock |
| CameraController.MaybeReinitLowerXclk | firmware/firmware/CameraController.cpp:253-266 | the new context is `ReinitLower` of the old one |
| CameraController.InitCamera | firmware/firmware/CameraController.cpp:283-290 | new context and result are `CameraSpec.InitCamera` of the old context |
| CameraController.ApplyConfigIfNeeded | firmware/firmware/CameraController.cpp:292-325 | the new context is `ApplyConfig` of the old one |
| CameraController.GrabFallback | firmware/firmware/CameraController.cpp:343-359 | the fallback loop hits exactly when `FallbackGrab` does, at the size it names; the sensor is set back to the wanted size; no other part of the context changes |
| CameraController.TryGrab | firmware/firmware/CameraController.cpp:331-359 | new context and result are `GrabAttempts` of the old context |
| CameraController.SafeGrab | firmware/firmware/CameraController.cpp:327-367 | new context and result are `CameraSpec.SafeGrab` of the old context and the time |
| CameraLemmas.ClampTuningSpec | firmware/firmware/CameraController.cpp:82-90 | the clamped snapshot is in range and keeps every switch; a snapshot in range is kept; clamping is idempotent |
| CameraLemmas.ClampTuningInRange | firmware/firmware/CameraController.cpp:82-90 | every numeric field is in range, the switches are copied, and the gain ceiling index is capped at 5 |
| CameraLemmas.ClampTuningKeeps | firmware/firmware/CameraController.cpp:82-90 | a snapshot already in range is its own clamp |
| CameraLemmas.ApplyManualSpec | firmware/firmware/CameraController.cpp:75-133 | without a sensor nothing changes; with one, active becomes the clamped target and the registers hold exactly that snapshot; the target, frame size, quality and aec2 are untouched, and so is everything outside camera and driver |
| CameraLemmas.ManualGainceiling | firmware/firmware/CameraController.cpp:89-103 | the gain ceiling written is the clamped index's, 64X for an index above 5 |
| CameraLemmas.ProfileSpec | firmware/firmware/CameraController.cpp:55-73 | the inactive profile only clears aec2; the boosted one forces gain, white-balance gain and exposure control on, gain ceiling 32X (not the 64X maximum), aec2 on, AE level clamp(target, 0, 2), and dcw, bpc and wpc on; lens correction and every other register are left alone |
| CameraLemmas.TunedRegsIdempotent | firmware/firmware/CameraController.cpp:184-191 | refreshing twice is refreshing once, and a refresh keeps frame size and quality |
| CameraLemmas.TunedRegsForget | firmware/firmware/CameraController.cpp:184-191 | the registers after a refresh depend only on target and profile, not on what was there before |
| CameraLemmas.RefreshSpec | firmware/firmware/CameraController.cpp:184-191 | on a camera that is not running nothing changes; on a running one the registers are tuned to the target under the current profile, active becomes the clamped target, and nothing else changes |
| CameraLemmas.ResetSpec | firmware/firmware/CameraController.cpp:193-198 | score 0 and inactive whatever the camera's state; on a running camera the registers carry the inactive profile |
| CameraLemmas.AdvancedThenRefresh | firmware/firmware/CameraController.cpp:174-191 | after the advanced pass and a refresh only the refresh's profile is visible |
| CameraLemmas.ObserveDisabled | firmware/firmware/CameraController.cpp:138 | with boost disabled the observer changes nothing |
| CameraLemmas.ObserveSpec | firmware/firmware/CameraController.cpp:135-164 | an enabled step moves the score by `ScoreStep`, keeps it in [0, 6] and leaves `active == (score >= 3)`; when `active` does not flip, camera, driver and transition time are untouched; when it flips, the registers get the new profile and `now` is recorded |
| CameraLemmas.ThreeDarkSamplesActivate | firmware/firmware/CameraController.cpp:140-153 | three samples at aec 900 from score 0 turn the boost on exactly at the third |
| CameraLemmas.SaturatedNeedsFourToRelease | firmware/firmware/CameraController.cpp:143-153 | from score 6, samples without a boost request leave the boost on for three samples and turn it off at the fourth |
| CameraLemmas.EvaluateSpec | firmware/firmware/CameraController.cpp:166-172 | evaluation does nothing unless boost is on, the camera initialised and the sensor present; then it is one observer step on the sensor's own aec and gain readings |
| CameraLemmas.DefaultTuningInRange | firmware/firmware/AppContext.h:9-30 | the default tuning already lies in every range, so clamping keeps it |
| CameraLemmas.DefaultCameraState | firmware/firmware/AppContext.h:32-46 | frame size and target are VGA, keys "VGA", quality and target 12; not initialised, 20 MHz, streak 0, last re-init 0; the key matches the size |
| CameraLemmas.InitialValid | firmware/firmware/AppContext.h:70-75 | power-on with the camera down satisfies the invariant, with boost enabled and inactive |
| CameraLifecycle.InitWithXclkSpec | firmware/firmware/CameraController.cpp:200-251 | the clock is recorded whatever the outcome; success follows the driver's outcome; on success the sensor gets the recorded frame size and quality and is fully tuned; only that init is logged |
| CameraLifecycle.InitCameraLadder | firmware/firmware/CameraController.cpp:283-290 | tries 20, 16.5 and 10 MHz with 200 ms pauses and stops at the first success; it succeeds iff one of the three does; when all fail the camera is left down at 10 MHz |
| CameraLifecycle.FailedRung | firmware/firmware/CameraController.cpp:234-239 | a failed rung marks the camera down at that clock and logs the init and the pause; nothing else changes |
| CameraLifecycle.ReinitLowerSpec | firmware/firmware/CameraController.cpp:253-266 | the clock goes to `NextXclk` and never up; at 10 MHz or below nothing happens; otherwise deinit, a 200 ms pause and one attempt at the lower clock |
| CameraLifecycle.StepDownRungs | firmware/firmware/CameraController.cpp:256-258 | 20 MHz steps to 16.5, 16.5 to 10, and 10 stays |
| CameraLifecycle.ApplyConfigNotInited | firmware/firmware/CameraController.cpp:295 | when not initialised, reconciliation changes nothing |
| CameraLifecycle.ApplyConfigReinit | firmware/firmware/CameraController.cpp:297-309 | on a frame-size mismatch, frame size, key and quality are overwritten with their targets before the ladder runs; if every rung fails it stops before the tuning pass |
| CameraLifecycle.ApplyConfigQuality | firmware/firmware/CameraController.cpp:310-317 | a quality-only mismatch is written straight to the sensor, with no re-init |
| CameraLifecycle.TuningPassSpec | firmware/firmware/CameraController.cpp:319-324 | the registers end tuned to the target under the profile the low-light state calls for; with boost disabled the state is reset to score 0 and inactive, otherwise it is kept |
| CameraLifecycle.ApplyConfigValid | firmware/firmware/CameraController.cpp:292-325 | reconciliation restores the invariant even after the targets changed, and never changes a target or the boost switch |
| CameraLifecycle.TuningPassIdempotent | firmware/firmware/CameraController.cpp:319-324 | a second tuning pass over an up sensor leaves the context as the first one left it |
| CameraLifecycle.ApplyConfigIdempotent | firmware/firmware/CameraController.cpp:292-325 | reconciliation is idempotent: a second call with no new target changes neither the sensor registers nor any other part of the context |
| CameraLifecycle.CandidatesOf | firmware/firmware/CameraController.cpp:346-348 | the sizes tried are exactly the fallback sizes strictly below the wanted one, in SVGA, VGA, QVGA order |
| CameraLifecycle.FallbackLog | firmware/firmware/CameraController.cpp:347-357 | the fallback loop's log and result, position by position: it stops at the first success |
| CameraLifecycle.FallbackState | firmware/firmware/CameraController.cpp:347-358 | on a hit one more buffer is out and the sensor is back at the wanted size; on a miss only the size register may differ; the camera stays up |
| CameraLifecycle.GrabAttemptsSpec | firmware/firmware/CameraController.cpp:331-359 | a plain grab first; on failure the streak goes up by one modulo 256 and the candidates are tried in order; the sensor ends at the recorded size; on success the streak is 0 and the last-used key is that of the size that worked |
| CameraLifecycle.GrabAttemptsKeeps | firmware/firmware/CameraController.cpp:331-359 | the grab attempts never change the re-init time, the frame size, its target or the clock |
| CameraLifecycle.SafeGrabReinit | firmware/firmware/CameraController.cpp:361-366 | the re-init fires only after a failed grab with streak >= 3 and more than 7000 ms (mod 2^32) since the last one, and records `now`; otherwise the time is kept; frame size and target never change |
| CameraLifecycle.SafeGrabRestoresFrameSize | firmware/firmware/CameraController.cpp:327-367 | on a valid initialised camera the sensor is left at the wanted frame size on every path |
| CameraLifecycle.ReinitsSpaced | firmware/firmware/CameraController.cpp:361-365 | over any sequence of `safeGrab` calls, consecutive re-inits, and the first one after the previous re-init, are more than 7000 ms apart (mod 2^32) |
| CameraLifecycle.RefreshValid | firmware/firmware/CameraController.cpp:184-191 | a refresh preserves the invariant |
| CameraLifecycle.ResetValid | firmware/firmware/CameraController.cpp:193-198 | a reset preserves the invariant |
| CameraLifecycle.EvaluateValid | firmware/firmware/CameraController.cpp:166-172 | an observer step preserves the invariant |
| CameraLifecycle.InitCameraValid | firmware/firmware/CameraController.cpp:283-290 | the clock ladder establishes the invariant from any valid low-light state |
| CameraLifecycle.ReinitLowerValid | firmware/firmware/CameraController.cpp:253-266 | a step-down re-init preserves the invariant |
| CameraLifecycle.SafeGrabValid | firmware/firmware/CameraController.cpp:327-367 | a grab preserves the invariant |
| EspCamera.SubU32 | firmware/firmware/CameraController.cpp:361-362 | `unsigned long` subtraction: the difference, plus 2^32 when it would be negative |
| EspCamera.IncU8 | firmware/firmware/AppContext.h:42 | `uint8_t` increment: one more, and 255 wraps to 0 |
| EspCamera.FbGet | firmware/firmware/CameraController.cpp:331-350 | a frame is handed out only when the camera is up, and then one more buffer is held; the grab is logged at the sensor's current size |
| EspCamera.CameraInit | firmware/firmware/CameraController.cpp:234 | `esp_camera_init` draws one scripted outcome and logs it; the camera is up iff it succeeded; registers, grab script and held buffers are untouched |
| EspCamera.FbReturn | firmware/firmware/BackendClient.cpp:295 | `esp_camera_fb_return` gives one held buffer back, and it is logged |
| AppContext.FirmwareState.constructor | firmware/firmware/AppContext.h:86-97 | over a store and a powered-down driver, the context starts with every struct at its default value |
| FrameSizes.KeyIndex | firmware/firmware/ConfigStorage.cpp:26-33 | the first row whose key equals the given one ignoring case, or -1 when there is none |
| FrameSizes.ValIndex | firmware/firmware/ConfigStorage.cpp:35-42 | the first row holding the given size, or -1 when there is none |
| FrameSizes.TableIncreasing | firmware/firmware/ConfigStorage.cpp:14-23 | the table's sizes strictly increase, so the enum order is the table order |
| FrameSizes.TableKeysDistinct | firmware/firmware/ConfigStorage.cpp:14-23 | no two keys are equal ignoring case |
| FrameSizes.FromKeyMatchingRow | firmware/firmware/ConfigStorage.cpp:26-31 | a key matching a row in any letter case gives that row's size |
| FrameSizes.FromUnknownKey | firmware/firmware/ConfigStorage.cpp:32 | an unknown key gives VGA |
| FrameSizes.KeyAndLabelOfRow | firmware/firmware/ConfigStorage.cpp:35-58 | a table size gives back its row's key and label |
| FrameSizes.KeyAndLabelOfUnknown | firmware/firmware/ConfigStorage.cpp:35-58 | a size outside the table gives "VGA" and "640x480 (VGA)" |
| FrameSizes.FromKeyOfKey | firmware/firmware/ConfigStorage.cpp:14-42 | every table size survives key-and-back |
| FrameSizes.KeyOfFromKey | firmware/firmware/ConfigStorage.cpp:14-42 | any spelling of a table key comes back as the canonical key |
| FrameSizes.KeyFromFramesizeInTable | firmware/firmware/ConfigStorage.cpp:35-42 | the key returned is always a table key |
| FrameSizes.DefaultUploadUrlShape | firmware/firmware/ConfigStorage.cpp:45-49 | "" exactly for an empty base; otherwise the base without one trailing '/' followed by "/upload" |
| ConfigStorage.ToU8 | firmware/firmware/ConfigStorage.cpp:97 | `static_cast<uint8_t>` keeps a value in 0..255 |
| ConfigStorage.ReadStoredPrefs | firmware/firmware/ConfigStorage.cpp:73-107 | the new context is `ReadStored` of the old one |
| ConfigStorage.ClampStored | firmware/firmware/ConfigStorage.cpp:123-129 | the clamped snapshot is `LoadClamp` of the stored one |
| ConfigStorage.NormalisePrefs | firmware/firmware/ConfigStorage.cpp:108-133 | the new context is `Normalise` of the old one |
| ConfigStorage.LoadPrefs | firmware/firmware/ConfigStorage.cpp:67-134 | the new context is `Loaded` of the old one |
| ConfigStorage.SavePrefs | firmware/firmware/ConfigStorage.cpp:136-176 | only the store changes, to `Saved` of the context |
| ConfigLemmas.KeyNames | firmware/firmware/ConfigStorage.cpp:74-106 | every key name is 1 to 15 characters, within the NVS limit, and names exactly one setting |
| ConfigLemmas.KeyNamesDistinct | firmware/firmware/ConfigStorage.cpp:142-174 | two different settings never share a key name |
| ConfigLemmas.LoadClampSpec | firmware/firmware/ConfigStorage.cpp:123-129 | the load-time clamp lands in range and keeps the switches and the white-balance mode, which it does not clamp |
| ConfigLemmas.LoadClampKeeps | firmware/firmware/ConfigStorage.cpp:123-129 | a snapshot already in range is kept |
| ConfigLemmas.LoadClampAgrees | firmware/firmware/ConfigStorage.cpp:123-129 | the load-time clamp never changes what the sensor is finally given |
| ConfigLemmas.LoadedConfig | firmware/firmware/ConfigStorage.cpp:73-121 | each setting is read under its key with its default; an empty stored upload URL falls back to `defaultUploadUrl` of the base; the interval lies in [1, 3600] |
| ConfigLemmas.LoadedCamera | firmware/firmware/ConfigStorage.cpp:112-133 | the frame size is the key's; quality is clamped to [5, 63]; every target equals its loaded value; the target is the stored tuning under the load-time clamp; score 0 and inactive |
| ConfigLemmas.LoadEmptyStore | firmware/firmware/ConfigStorage.cpp:73-106 | with nothing stored, loading gives the built-in defaults of `AppContext.h` |
| ConfigLemmas.LoadedValid | firmware/firmware/ConfigStorage.cpp:67-134 | loading, with the camera not running, leaves a valid controller state |
| ConfigLemmas.SavedStores | firmware/firmware/ConfigStorage.cpp:141-174 | after saving, every key holds the value written for it: the target snapshot, target key and target quality, not the active ones |
| ConfigLemmas.ReadTuningBack | firmware/firmware/ConfigStorage.cpp:86-105 | a store holding a snapshot's twenty fields under their keys reads back as that snapshot |
| ConfigLemmas.SavedTuning | firmware/firmware/ConfigStorage.cpp:154-173 | reading a saved store gives back the saved target tuning |
| ConfigLemmas.SavedSettings | firmware/firmware/ConfigStorage.cpp:142-174 | reading a saved store gives back the saved settings, targets and boost switch |
| ConfigLemmas.SaveLoadRoundTrip | firmware/firmware/ConfigStorage.cpp:67-176 | for a normalised context, save then load gives back the same configuration |
| ConfigLemmas.LoadedNormalised | firmware/firmware/ConfigStorage.cpp:108-131 | what loading leaves is normalised |
| ConfigLemmas.LoadSaveLoad | firmware/firmware/ConfigStorage.cpp:67-176 | saving what was loaded and loading again changes nothing |
| ConfigLemmas.HexSpec | firmware/firmware/ConfigStorage.cpp:63 | `%llX` prints upper-case digits that read back as the number, in at most k digits below 16^k |
| ConfigLemmas.PadZerosSpec | firmware/firmware/ConfigStorage.cpp:63 | zero padding keeps the value and upper case, and reaches the width |
| ConfigLemmas.LeadingZeros | firmware/firmware/ConfigStorage.cpp:63 | leading zeros do not change the value of the hex text |
| ConfigLemmas.DeviceIdSpec | firmware/firmware/ConfigStorage.cpp:60-65 | the device id is upper-case hex that reads back as the MAC, twelve digits for every 48-bit address |
| BackendLemmas.JoinUrlSpec | firmware/firmware/BackendClient.cpp:18-27 | an empty base gives the path, an empty path the base; otherwise the base without one trailing '/', exactly one '/', and the path without one leading '/' |
| BackendLemmas.ConfigUrlShape | firmware/firmware/BackendClient.cpp:113-114 | the config request goes to "/api/config" on the base, with the device id and revision as query |
| BackendClient.KeyColon | firmware/firmware/BackendClient.cpp:30-33 | the value position found always holds ':' |
| BackendClient.ToInt | firmware/firmware/BackendClient.cpp:53 | `toInt` saturates to the 32-bit `long` range |
| BackendClient.SkipBlanksLoop | firmware/firmware/BackendClient.cpp:49 | the loop stops where `SkipBlanks` does |
| BackendClient.ScanNumberLoop | firmware/firmware/BackendClient.cpp:51 | the loop stops where `ScanNumber` does |
| BackendClient.JsonGetInt | firmware/firmware/BackendClient.cpp:42-54 | the scanning method computes `JsonInt` |
| BackendClient.JsonGetBool | firmware/firmware/BackendClient.cpp:56-67 | the scanning method computes `JsonBool` |
| BackendClient.ToU32 | firmware/firmware/BackendClient.cpp:192 | `static_cast<uint32_t>` is the identity on 0..2^32-1 and adds 2^32 to a negative 32-bit value |
| BackendClient.U32ToLong | firmware/firmware/BackendClient.cpp:138 | a `uint32_t` given as a `long` default stays in range, unchanged up to `LONG_MAX` |
| BackendClient.ReadUploadFields | firmware/firmware/BackendClient.cpp:136-158 | the fields read and clamped are `UploadFields` of the old state and body |
| BackendClient.ApplyUploadFields | firmware/firmware/BackendClient.cpp:144-159 | the new context is `UploadApplied` of the old one |
| BackendClient.ApplyBoostField | firmware/firmware/BackendClient.cpp:142-164 | the new context is `BoostApplied` of the old one |
| BackendClient.ReadTargetFields | firmware/firmware/BackendClient.cpp:166-187 | the new target is `TargetFromBody` of the old one |
| BackendClient.ApplyConfigBody | firmware/firmware/BackendClient.cpp:134-194 | the new context is `ConfigApplied` of the old one and the body |
| BackendClient.FetchConfigFromBackend | firmware/firmware/BackendClient.cpp:107-212 | new context and result are `FetchConfig` of the old context, the WiFi status and the response |
| BackendClient.UploadFrameToApi | firmware/firmware/BackendClient.cpp:234-280 | new context and result are `UploadFrame` of the old context |
| BackendClient.CaptureAndUploadOnce | firmware/firmware/BackendClient.cpp:282-297 | new context and result are `CaptureUpload` of the old context |
| BackendClient.GrabHandsOut | firmware/firmware/CameraController.cpp:327-367 | `safeGrab` hands out one buffer when it reports success and none otherwise |
| BackendClient.HeldAfterGrab | firmware/firmware/BackendClient.cpp:286-294 | a buffer handed out by the grab is still held after the low-light step and the upload |
| BackendLemmas.SkipBlanksAt | firmware/firmware/BackendClient.cpp:49 | skipping stops at the first character that is neither space nor tab |
| BackendLemmas.ScanNumberAt | firmware/firmware/BackendClient.cpp:51 | the number scan stops at the first character that is neither digit nor '-' |
| BackendLemmas.KeyAbsent | firmware/firmware/BackendClient.cpp:29-67 | with no quoted key, the string scanner gives "" and the others their defaults |
| BackendLemmas.KeyColonFound | firmware/firmware/BackendClient.cpp:31-33 | a value position is found only in a body holding the quoted key |
| BackendLemmas.NoQuoteNoFields | firmware/firmware/BackendClient.cpp:30-32 | a body without '"' carries no field at all |
| BackendLemmas.KeyColonAt | firmware/firmware/BackendClient.cpp:30-33 | for `"key"` followed by text without ':' and then ':', the value starts right after that colon |
| BackendLemmas.JsonGetStringSpec | firmware/firmware/BackendClient.cpp:29-40 | the result never contains '"'; a non-empty result comes from a body with the quoted key and the result between quotes |
| BackendLemmas.QuotedFromSpec | firmware/firmware/BackendClient.cpp:35-39 | the quoted text read holds no '"' and, when not empty, sits in the body between two quotes |
| BackendLemmas.StringAfterColon | firmware/firmware/BackendClient.cpp:35-39 | after the colon, text without '"' then `"v"` reads as v |
| BackendLemmas.StringRead | firmware/firmware/BackendClient.cpp:35-39 | the result is the text between the next two quotes after the colon |
| BackendLemmas.JsonStringOfField | firmware/firmware/BackendClient.cpp:29-40 | a field `"key": "v"` reads back as v |
| BackendLemmas.AtoLIntToString | firmware/firmware/BackendClient.cpp:53 | `toInt` reads back the decimal text of any integer in range |
| BackendLemmas.IntRead | firmware/firmware/BackendClient.cpp:48-53 | an empty digit run gives the default; otherwise the number is `toInt` of the run |
| BackendLemmas.IntAfterColon | firmware/firmware/BackendClient.cpp:48-53 | after the colon, blanks then a number run then a non-number: the default for an empty run, else `toInt` of the run |
| BackendLemmas.JsonIntOfField | firmware/firmware/BackendClient.cpp:42-54 | a field `"key": n` followed by a non-number reads back as n |
| BackendLemmas.JsonIntNotNumber | firmware/firmware/BackendClient.cpp:52 | a value starting with neither digit nor '-' (`null`, a quoted number) gives the default |
| BackendLemmas.JsonIntSpec | firmware/firmware/BackendClient.cpp:42-54 | a result other than the default comes from a body with the key, and lies in the `long` range |
| BackendLemmas.BoolRead | firmware/firmware/BackendClient.cpp:62-66 | `true` gives true, `false` false, and anything else the default |
| BackendLemmas.BoolAfterColon | firmware/firmware/BackendClient.cpp:61-66 | after the colon and blanks, text starting with `true` gives true, with `false` false, and anything else the default |
| BackendLemmas.JsonBoolOfField | firmware/firmware/BackendClient.cpp:56-67 | a field `"key": true` or `false` reads back as that literal |
| BackendLemmas.JsonBoolNotLiteral | firmware/firmware/BackendClient.cpp:64-66 | a value that is neither literal (`1`, `"yes"`, `null`) gives the default |
| BackendLemmas.JsonBoolSpec | firmware/firmware/BackendClient.cpp:56-67 | a result other than the default comes from a body with the key and the literal returned |
| BackendLemmas.BodyAppliedFields | firmware/firmware/BackendClient.cpp:136-187 | the body's writes: upload fields, targets and boost switch; a flipped switch resets the low-light state and an unchanged one does not; network, backend, store and HTTP state untouched |
| BackendLemmas.ConfigAppliedClamps | firmware/firmware/BackendClient.cpp:148-157 | after any body, the quality target lies in [5, 63], the interval in [1, 3600], and the upload URL is empty only when the base URL is |
| BackendLemmas.UploadFieldsClamps | firmware/firmware/BackendClient.cpp:148-157 | the upload fields alone keep the quality and interval in range |
| BackendLemmas.ConfigAppliedKeeps | firmware/firmware/BackendClient.cpp:189-194 | reconciliation, revision and save keep the body's targets and upload settings |
| BackendLemmas.ConfigAppliedFrameSize | firmware/firmware/BackendClient.cpp:136-147 | the frame-size target changes only for a non-empty key, to the size named and the key as sent |
| BackendLemmas.ConfigAppliedGainceiling | firmware/firmware/BackendClient.cpp:178-179 | the gain ceiling index changes only for a value that is present and not negative |
| BackendLemmas.TargetGainceiling | firmware/firmware/BackendClient.cpp:178-179 | the same, for the target update alone |
| BackendLemmas.ConfigAppliedRevision | firmware/firmware/BackendClient.cpp:134-193 | the revision changes only when the body carries one, stored as 32 unsigned bits |
| BackendLemmas.RevAppliedSpec | firmware/firmware/BackendClient.cpp:191-193 | the same, for the revision step alone |
| BackendLemmas.ApplyConfigKeepsTargets | firmware/firmware/CameraController.cpp:292-325 | reconciliation never touches a target, the upload or backend settings, or the store |
| BackendLemmas.ConfigAppliedValid | firmware/firmware/BackendClient.cpp:134-194 | applying a body preserves the invariant |
| BackendLemmas.ConfigAppliedSurvivesReboot | firmware/firmware/BackendClient.cpp:194 | what a body leaves is what the next boot loads, up to the load-time clamps, which the sensor clamps make invisible |
| BackendLemmas.FetchConfigSpec | firmware/firmware/BackendClient.cpp:107-132 | the fetch succeeds exactly with a base URL, a token, WiFi and a positive status; on failure nothing changes; on success the body is applied |
| BackendLemmas.UploadFrameSpec | firmware/firmware/BackendClient.cpp:234-280 | success exactly on a 2xx answer to a POST that could be made; a missing URL, missing WiFi or a client that cannot start records status 0; only the HTTP state changes |
| BackendLemmas.CaptureReleasesOnce | firmware/firmware/BackendClient.cpp:282-297 | not initialised: nothing changes; a failed grab returns nothing and records "fb=null"; a successful grab runs the low-light step and returns the buffer exactly once, after the upload; the held count is unchanged |
| BackendLemmas.CaptureValid | firmware/firmware/BackendClient.cpp:282-297 | a capture preserves the invariant |
| Strings.IndexOfFirst | firmware/firmware/BackendClient.cpp:31 | `indexOf(string)` finds the first occurrence at or after the start, and -1 only when there is none |
| Strings.IndexOfCharFirst | firmware/firmware/BackendClient.cpp:33-37 | `indexOf(char)` finds the first such character, and -1 only when there is none |
| Strings.IndexOf | firmware/firmware/BackendClient.cpp:31 | `indexOf(string, from)` is -1 or an occurrence at or after `from` |
| Strings.IndexOfChar | firmware/firmware/BackendClient.cpp:33-37 | `indexOf(char, from)` is -1 or a position at or after `from` holding the character |
| Strings.Strip | backend/routes/admin.py:29 | `strip()` leaves text that neither starts nor ends with whitespace |
| Strings.Split | backend/core/auth.py:7 | `split()` yields non-empty words without whitespace, the first starting with the text's first character when that is not whitespace |
| Strings.SplitOn | backend/routes/upload.py:165 | `split(c)` yields at least one part, and no part contains c |
| Strings.ParsePyInt | backend/routes/admin.py:36-43 | `int(s)` of blank text is `ValueError` |
| Strings.ReplaceAbsent | backend/routes/upload.py:211-213 | `replace` leaves text without the placeholder unchanged |
| Strings.SplitJoinWords | backend/core/auth.py:7 | `str.split()` of words joined with spaces gives the words back |
| Strings.StripIdempotent | backend/routes/admin.py:26-30 | `strip` twice is `strip` once |
| Strings.ParseIntToString | backend/routes/admin.py:33-43 | `int(str(i)) == i` |
| Strings.JoinSplitOn | backend/routes/upload.py:165 | `split(c)` then `join` with c is the identity |
| Strings.RStripChar | backend/routes/admin.py:73 | `rstrip(c)` leaves a prefix that does not end in c, and removes only c characters |
| PyValues.Or | backend/routes/device.py:115-116 | Python `or`: one of its operands, truthy iff either is |
| PyValues.RowValue | backend/routes/admin.py:19-23 | the column when the row has it, `None` for no row or no column |
| PyValues.StrOrDefaultSpec | backend/routes/admin.py:26-30 | the default for `None` or blank text; otherwise the stripped text, which is never blank |
| PyValues.StrOrDefaultIdempotent | backend/routes/device.py:118-122 | feeding a result back in gives the same result |
| PyValues.IntOrDefaultSpec | backend/routes/admin.py:33-43 | `int(value)` with the default for `None`, blank text and unparseable text |
| PyValues.IntOrDefaultOfText | backend/routes/admin.py:33-43 | an integer, or its text, reads back as itself |
| PyValues.BoolOrDefaultSpec | backend/routes/admin.py:46-58 | stripped lower-cased true words give true, false words false, `None` the default; an integer is true iff non-zero; other text goes through `int()` |
| PyValues.BoolOrDefaultOfFlag | backend/routes/admin.py:46-58 | a stored 1 or 0 reads back as the flag |
| PyValues.ClampSpec | backend/routes/device.py:19-24 | `_clamp` lies in range, keeps an in-range value, and equals `max(low, min(high, v))` |
| PyValues.CleanIntSpec | backend/routes/device.py:124-131 | the default for `None`, unparseable input or a value <= 0; a positive parse otherwise |
| PyValues.NormalizeIsClean | backend/routes/upload.py:194-205 | `_normalize_int` is `_clean_int`: its blank check changes nothing |
| Auth.GetBearerSpec | backend/core/auth.py:3-10 | no token for a missing or empty header; a token iff the header splits into two parts whose first is "bearer" in any case; the token is the second part |
| Auth.BearerOfHeader | backend/core/auth.py:7-9 | `<scheme> <token>` with scheme "bearer" in any case yields the token |
| Auth.BearerWrongPartCount | backend/core/auth.py:8-10 | any other number of words yields nothing |
| Auth.BearerWrongScheme | backend/core/auth.py:8-10 | two words under another scheme yield nothing |
| Auth.RequireBearerSpec | backend/core/auth.py:12-15 | allowed iff the token equals the expected one; anything else is 401, including a missing or malformed header and any header when the expected token is empty |
| Auth.RequireBearerAccepts | backend/core/auth.py:12-15 | the header a client builds from the expected token is accepted |
| Auth.RequireBearerRejectsExtraParts | backend/core/auth.py:3-15 | "Bearer a b" is refused whatever is expected |
| Upload.UploadAuthorizedSpec | backend/routes/upload.py:96-103 | authorized iff a token is present and equals the upload token or the device's non-empty token |
| Upload.DeviceTokenAdmits | backend/routes/upload.py:100-103 | `Bearer <token>` with the device's own token gets in |
| Upload.Take | backend/routes/upload.py:167 | Python `s[:n]`, a negative n counting from the end |
| Upload.CollectLastImages | backend/routes/upload.py:155-167 | the loop's result is the newline join of `RecentImages` |
| Upload.NonEmptySpec | backend/routes/upload.py:165 | the filter keeps exactly the non-empty entries, in order |
| Upload.StoredUrlsSpec | backend/routes/upload.py:162-165 | stored entries are non-empty and hold no newline; no row or a falsy column gives none |
| Upload.RecentImagesSpec | backend/routes/upload.py:155-167 | the new URL first, then the stored entries in order; `min(limit, 1 + stored)` entries for a non-negative limit |
| Upload.SplitOnJoin | backend/routes/upload.py:165-167 | joining newline-free parts and splitting gives them back |
| Upload.HistoryRoundTrip | backend/routes/upload.py:127-167 | the stored history reads back as the same list |
| Upload.HandleUploadSpec | backend/routes/upload.py:94-143 | 401 iff unauthorized, before anything else; then 415 without `image/jpeg`, then 400 for an empty body; a stored upload returns its URL path and records it first in the history |
| Upload.GeneratePathSpec | backend/routes/upload.py:178-189 | a generate path is kept (trailing '/' dropped); "/api" gets "/generate"; otherwise "/api/generate" is appended or used alone; the result is itself a kept path |
| Upload.GeneratePathIdempotent | backend/routes/upload.py:178-189 | choosing the path twice is choosing it once |
| Analysis.AnalysisRequestSpec | backend/routes/upload.py:171-213 | an analysis is attempted iff host and model are non-blank and a prompt template is truthy; stripped texts; positive counts when the defaults are |
| Analysis.RowSettingWins | backend/routes/upload.py:171-172 | a row's own non-empty host or model is used, stripped |
| Analysis.PromptWithoutPlaceholders | backend/routes/upload.py:210-213 | a template without placeholders is sent unchanged |
| Analysis.ReplaceWhole | backend/routes/upload.py:211-213 | the placeholder alone becomes the replacement |
| Analysis.ReplaceBraceFree | backend/routes/upload.py:211-213 | text without '{' goes through the replacement of a brace placeholder unchanged |
| Analysis.HeadPathPrompt | backend/routes/upload.py:212 | a brace-free head followed by "{path}" becomes the head and the file path |
| Analysis.DefaultPromptText | backend/core/config.py:32 | the shipped default prompt becomes its text followed by the image's file path |
| Analysis.UrlReplacedFirst | backend/routes/upload.py:211-212 | "{url}" is replaced first, so placeholders in the URL path are replaced later |
| Analysis.BaseNameOf | backend/routes/upload.py:213 | the file name of `<dir>/<name>` is `name` |
| Analysis.ReplyTextPriority | backend/routes/upload.py:251 | "response" before "output" before "text" |
| Analysis.TruthyTextsSpec | backend/routes/upload.py:252-253 | a list's falsy parts are skipped and the rest joined with spaces |
| Analysis.FieldTextSpec | backend/routes/upload.py:251-256 | the text is stripped; an all-falsy list gives `None` like a falsy scalar |
| Analysis.FieldTextOfWords | backend/routes/upload.py:252-256 | a list of non-empty text parts gives them joined with spaces and stripped, `None` only when the join is empty |
| Analysis.BlankReplyIsEmpty | backend/routes/upload.py:254-255 | a whitespace-only reply gives "", not `None` |
| Storage.SafeNameSpec | backend/core/storage.py:6-9 | each allowed character is kept in place and every other becomes '_'; the length is kept; only allowed characters remain |
| Storage.SafeNameOfSafe | backend/core/storage.py:6-9 | a name made of allowed characters is unchanged |
| Storage.SafeNameIdempotent | backend/core/storage.py:6-9 | `safe_name` is idempotent |
| Storage.FinalNameSpec | backend/core/storage.py:15-18 | the final name ends with ".jpg" in any case and holds only allowed characters; ".jpg" is appended exactly when missing |
| Storage.FallbackName | backend/core/storage.py:15 | without a suggested name, a safe device id gives `{device_id}_{ts}.jpg` |
| Storage.SuggestedKept | backend/core/storage.py:15-18 | a safe suggested name ending in ".jpg" in any case is kept |
| Storage.SaveImageSpec | backend/core/storage.py:15-23 | the URL path is `/uploads/{device_id}/{fname}` over the final name |
| Admin.WithoutParams | backend/routes/admin.py:70 | dropping the `;params` of the last path segment leaves a prefix of the path |
| Admin.HealthPathSpec | backend/routes/admin.py:73-82 | the health path always ends with "/api/tags", and starts with '/' for a '/'-rooted path |
| Admin.HealthPathOfGenerate | backend/routes/admin.py:74-80 | a generate path or an "/api" path becomes the tags endpoint beside it |
| Admin.HealthPathClean | backend/routes/admin.py:73-83 | rewriting a path adds no '?' or '#' |
| Admin.SplitUrlFacts | backend/routes/admin.py:70 | scheme http or https; network location and path free of '?' and '#' |
| Admin.HealthUrlSpec | backend/routes/admin.py:62-84 | `None` for an empty or blank host; any URL returned is http or https, ends with "/api/tags" and has no query or fragment |
| Admin.HealthUrlOfBareHost | backend/routes/admin.py:65-84 | a bare host name is probed at `http://<host>/api/tags` |
| Admin.RebuiltUrl | backend/routes/admin.py:83-84 | a URL rebuilt from an http(s) scheme and a location and path free of '?' and '#' starts with its scheme, ends with "/api/tags" and has no query or fragment |
| Admin.AdminTuningInRange | backend/routes/admin.py:111-122 | every clamped setting of the admin view is in range, whatever the row holds |
| Admin.DeviceRowCounts | backend/routes/admin.py:104-109 | both AI counts are positive, and equal to `_clean_int` of the column with 1024 or 64 |
| Admin.DeviceRowUrls | backend/routes/admin.py:96-97 | the stored URLs are the non-empty newline-separated entries, so an upload's history reads back unchanged |
| Admin.NamedColumnInverse | backend/routes/admin.py:241-306 | every column the patch can write has a name that identifies it |
| Admin.Patch | backend/routes/admin.py:241-306 | the patch holds exactly the supplied columns, each with its encoded value |
| Admin.UpdateDeviceConfigSpec | backend/routes/admin.py:235-309 | 404 iff the device is unknown; otherwise the patch holds exactly the supplied columns, and it is written iff one is supplied |
| Admin.ApplyPatch | backend/core/db.py:125-136 | patched columns get their new values; every other column keeps its value |
| Admin.EmptyTextsWriteNothing | backend/routes/admin.py:241-308 | an empty frame size or upload token counts as not supplied, so such a body writes nothing |
| Admin.FlagEncoding | backend/routes/admin.py:241-306 | flags are stored as 1 or 0 and read back as the flag sent |
| Admin.ClampedColumns | backend/routes/admin.py:277-293 | the gain ceiling is stored in [0, 5] and the special effect in [0, 6] |
| Admin.NumberEncoding | backend/routes/admin.py:241-306 | within the declared bounds a number is stored as sent and read back as sent |
| DeviceConfig.GetConfigAuth | backend/routes/device.py:101-103 | a configuration only for exactly the backend token; 401 otherwise |
| DeviceConfig.ConfigTuningInRange | backend/routes/device.py:151-173 | every clamped setting sent to a device is in range |
| DeviceConfig.AdminAgreesWithDevice | backend/routes/device.py:151-176 | the admin view shows exactly the camera settings a device receives |
| DeviceConfig.AdminAiAgreesWithDevice | backend/routes/device.py:133-137 | with the shipped counts as defaults, the admin view's AI settings are the ones a device receives |
| DeviceConfig.ConfigFallbacks | backend/routes/device.py:115-180 | a falsy revision is 1, a falsy frame size "VGA", a falsy upload URL the server's `/upload`, and a falsy token the configured one; truthy columns are sent unchanged |
| DeviceConfig.ConfigAiSettings | backend/routes/device.py:118-137 | the counts are positive when the defaults are, and the AI texts stripped when the defaults are |
| DeviceConfig.ReadBack | backend/routes/device.py:148-176 | a stored patch reads as patched |
| DeviceConfig.StoredFlagReads | backend/routes/device.py:149 | a flag the settings update sets is what the device then receives |
| DeviceConfig.StoredNumberReads | backend/routes/device.py:148-173 | a number within bounds is what the device reads, and `_clamp` keeps it |
| DeviceConfig.UnsuppliedKept | backend/routes/device.py:148-149 | a column the update leaves out reads as before |

## Left out

**Firmware**
- Hardware is a scripted driver. The `sensor_t` setters are a register file, `esp_camera_init` / `esp_camera_fb_get` draw outcomes from scripts, and the pin map and `psramFound` are not modelled.
- `millis()` and `time()` are parameters.
- Logging is left out. The rate-limited verbose branch of `updateLowLightObserver` is dead because `kVerboseLogging` is false, so it is omitted.
- `registerWithBackend` and `testUploadConnectivity` are network I/O and are left out.
- For `fetchConfigFromBackend` and `uploadFrameToApi`, the request's outcome (status and body) is a parameter. The request headers are not modelled.
- The device id is modelled from the MAC value. Reading the eFuse is not.
- `NetworkManager.cpp` is not part of this model: WiFi, captive portal, web server.
- The `DeviceInfo`, `WebServer` and `DNSServer` members of the context are not part of this model. The device id is a plain string.
- There is no concurrency in the firmware, and none is modelled.

**Backend**
- `urllib.parse` is replaced by a small http(s) splitter:
  - scheme;
  - network location up to '/', '?' or '#';
  - path up to '?' or '#', with its `;params` dropped.

  Tab and newline removal, IPv6 literals and scheme case folding are not modelled.
- SQLite access is modelled only as the row a lookup returns, and `update_config` as `Admin.ApplyPatch`.
- The upsert of an unknown device in `get_config`, and its write-back of upload URL and token, are not modelled.
- The Ollama and health-check `requests` calls are not modelled, and neither are reading and base64-encoding the image or writing files.
- Assembling the full endpoint URL from the host is not modelled. Its path is `Upload.GeneratePath`.
- Python `str.lower` is modelled for ASCII letters only. `strip` and `split` use Python's full `str.isspace` set. Python values are `None`, int or str, with no floats or bools.
- Strings.ParsePyInt: reads ASCII decimal digits only. Python's `int()` also accepts other Unicode decimal digits, such as Arabic-Indic or fullwidth digits. The model gives `ValueError` for those, so `_int_or_default`, `_bool_or_default` and `_clean_int` fall back to their defaults where Python would parse a number.
- The Ollama reply is taken to be a JSON object. A top-level list or scalar would make `data.get` raise in `run_ollama_analysis` (backend/routes/upload.py:251), which does not catch it; that case is not modelled.
- The Ollama reply fields are scalars or lists of scalars. Nested JSON objects are not modelled.
- Upload.HandleUpload: a client that disconnects while the body is read (backend/routes/upload.py:117-120) is folded into `bodyEmpty`. The model answers 400 there. The source answers `HTTP_499_CLIENT_CLOSED_REQUEST` when Starlette defines that constant, and 400 otherwise.
- Admin.Patch: the handler builds the patch with one insertion per supplied field. The model states the dict it ends with as a single map. The insertions touch distinct keys, so order does not affect which keys are present or their values. Insertion order itself is not modelled.
- DeviceConfig.ReadBack: the settings update is followed through the store column by column (`StoredFlagReads`, `StoredNumberReads`, `UnsuppliedKept`), not as one equation over the whole tuning record.
- `_device_row` copies some columns as they are (device id, firmware, IP, times, last analysis). Those pass-through fields are not modelled.

**Not proved**
- A config body with none of the firmware's fields changes only what the clamps change. This is stated field by field instead: `ConfigAppliedFrameSize`, `ConfigAppliedGainceiling`, `ConfigAppliedRevision`, `ConfigAppliedClamps`.

## Where the code differs from its description

The model follows the code everywhere, except for the simplifications listed under "## Left out" (ASCII-only `lower` and digit parsing, the Ollama reply shape, the disconnect status).

**Firmware**
- A frame-size re-init in `applyConfigIfNeeded` calls `initCamera`, which restarts the clock ladder at 20 MHz. It does not keep the current clock.
- Only the active snapshot is clamped. The target keeps what the backend sent, and `loadPrefs` does not clamp `wbMode`.
- The boosted profile sets a 32X gain ceiling, not the 64X maximum. It forces dcw, bpc and wpc on, not lens correction.

**Backend**
- A reply whose text is only whitespace gives the empty string, not `None`. The truthiness test comes before the strip.
- `_normalize_int` behaves exactly as `_clean_int`.
- The admin view uses the literals 1024 and 64 for the AI counts, while `get_config` uses the configured defaults. The two agree only with the shipped defaults (`DeviceConfig.AdminAiAgreesWithDevice`).
- The database default for contrast, saturation and sharpness is 0, while both readers fall back to 1 for a missing value.
- `update_device_config` never increases `config_rev`.
