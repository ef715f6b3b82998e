/**
 * The device's configuration request (`GET /api/config`, `routes/device.py`):
 * the bearer check against the backend token, and the JSON the device
 * receives, computed from its row with every number clamped into the range
 * the camera accepts.
 *
 * The row is the one the database returns, after the first-contact insert;
 * that insert and the `last_seen` / URL write-back are not modelled.
 */
module DeviceConfig {
  import opened Strings
  import opened Wrappers
  import opened PyValues
  import opened Auth
  import opened Tuning
  import opened Analysis
  import Admin

  /** The response fields computed from the row (the camera settings are in `tuning`). */
  datatype ConfigData = ConfigData(
    rev: PyValue, framesize: PyValue, uploadUrl: PyValue, uploadToken: PyValue,
    aiHost: string, aiModel: string, aiPrompt: string, aiNumCtx: int, aiNumPredict: int,
    tuning: Tuning)

  datatype ConfigResult = ConfigRejected(status: int) | ConfigSent(data: ConfigData)

  function ColumnOf(row: Row, key: string): PyValue {
    RowValue(Some(row), key)
  }

  function RowInt(row: Row, key: string, default: int): int {
    IntOrDefault(ColumnOf(row, key), default)
  }

  function RowBool(row: Row, key: string, default: bool): bool {
    BoolOrDefault(ColumnOf(row, key), default)
  }

  /** The settings as `get_config` clamps them with `_clamp` (lines 148-176). */
  function ConfigTuning(row: Row): Tuning {
    var gain := RowInt(row, "gainceiling", 4);
    var gain2 := if gain < 0 then 0 else gain;
    var gain3 := if gain2 > 5 then 5 else gain2;
    Tuning(
      RowInt(row, "jpeg_quality", 15), RowInt(row, "upload_interval_sec", 10),
      RowBool(row, "auto_upload", true),
      RowBool(row, "whitebal", true), Clamp(RowInt(row, "wb_mode", 0), 0, 4),
      RowBool(row, "hmirror", false), RowBool(row, "vflip", false),
      Clamp(RowInt(row, "brightness", 0), -2, 2), Clamp(RowInt(row, "contrast", 1), -2, 2),
      Clamp(RowInt(row, "saturation", 1), -2, 2), Clamp(RowInt(row, "sharpness", 1), -2, 2),
      RowBool(row, "awb_gain", true), RowBool(row, "gain_ctrl", true),
      RowBool(row, "exposure_ctrl", true), gain3, Clamp(RowInt(row, "ae_level", 0), -2, 2),
      RowBool(row, "lens_corr", true), RowBool(row, "raw_gma", true),
      RowBool(row, "bpc", true), RowBool(row, "wpc", true), RowBool(row, "dcw", true),
      RowBool(row, "colorbar", false),
      Clamp(RowInt(row, "special_effect", 0), 0, 6), RowBool(row, "low_light_boost", true))
  }

  /** The upload URL the device is told to use: the stored one, or this server's `/upload`. */
  function UploadUrlFor(row: Row, baseUrl: string): PyValue {
    Or(ColumnOf(row, "upload_url"), PyStr(RStripChar(baseUrl, '/') + "/upload"))
  }

  /** The response body for the device's row. */
  function ConfigBody(row: Row, baseUrl: string, uploadToken: string, ai: AiDefaults): ConfigData {
    ConfigData(
      Or(ColumnOf(row, "config_rev"), PyInt(1)),
      Or(ColumnOf(row, "framesize"), PyStr("VGA")),
      UploadUrlFor(row, baseUrl),
      Or(ColumnOf(row, "upload_token"), PyStr(uploadToken)),
      StrOrDefault(ColumnOf(row, "ai_host"), ai.host),
      StrOrDefault(ColumnOf(row, "ai_model"), ai.model),
      StrOrDefault(ColumnOf(row, "ai_prompt"), ai.prompt),
      CleanInt(ColumnOf(row, "ai_num_ctx"), ai.numCtx),
      CleanInt(ColumnOf(row, "ai_num_predict"), ai.numPredict),
      ConfigTuning(row))
  }

  /**
   * `get_config(req, deviceId)`: 401 unless the Authorization header carries
   * the backend token, otherwise the configuration of the device's row.
   */
  function GetConfig(authorization: Option<string>, backendToken: string, row: Row,
                     baseUrl: string, uploadToken: string, ai: AiDefaults): ConfigResult {
    match RequireBearer(authorization, backendToken)
    case Rejected(status) => ConfigRejected(status)
    case Allowed => ConfigSent(ConfigBody(row, baseUrl, uploadToken, ai))
  }

  // ---------------------------------------------------------------------------
  // Properties

  /** Only a request bearing exactly the backend token gets a configuration; any other gets 401. */
  lemma GetConfigAuth(authorization: Option<string>, backendToken: string, row: Row,
                      baseUrl: string, uploadToken: string, ai: AiDefaults)
    ensures var r := GetConfig(authorization, backendToken, row, baseUrl, uploadToken, ai);
      && (r.ConfigSent? <==> GetBearer(authorization) == Some(backendToken))
      && (r.ConfigRejected? ==> r.status == HTTP_401_UNAUTHORIZED)
  {
    RequireBearerSpec(authorization, backendToken);
  }

  /** Every clamped setting the device receives lies in the range the camera accepts. */
  lemma ConfigTuningInRange(row: Row)
    ensures InRange(ConfigTuning(row))
  {
    ClampSpec(RowInt(row, "wb_mode", 0), 0, 4);
    ClampSpec(RowInt(row, "brightness", 0), -2, 2);
    ClampSpec(RowInt(row, "contrast", 1), -2, 2);
    ClampSpec(RowInt(row, "saturation", 1), -2, 2);
    ClampSpec(RowInt(row, "sharpness", 1), -2, 2);
    ClampSpec(RowInt(row, "ae_level", 0), -2, 2);
    ClampSpec(RowInt(row, "special_effect", 0), 0, 6);
  }

  /**
   * The admin page shows exactly the camera settings a device receives: the
   * `max(lo, min(hi, v))` clamps of the admin view and `_clamp` agree.
   */
  lemma AdminAgreesWithDevice(row: Row)
    ensures Admin.AdminTuning(row) == ConfigTuning(row)
  {
    ClampSpec(RowInt(row, "wb_mode", 0), 0, 4);
    ClampSpec(RowInt(row, "brightness", 0), -2, 2);
    ClampSpec(RowInt(row, "contrast", 1), -2, 2);
    ClampSpec(RowInt(row, "saturation", 1), -2, 2);
    ClampSpec(RowInt(row, "sharpness", 1), -2, 2);
    ClampSpec(RowInt(row, "ae_level", 0), -2, 2);
    ClampSpec(RowInt(row, "special_effect", 0), 0, 6);
  }

  /**
   * With the shipped counts as defaults, the AI settings on the admin page
   * are the ones the device receives.
   */
  lemma AdminAiAgreesWithDevice(row: Row, baseUrl: string, uploadToken: string, ai: AiDefaults)
    requires ai.numCtx == 1024 && ai.numPredict == 64
    ensures var v := Admin.DeviceRow(row, ai);
      var d := ConfigBody(row, baseUrl, uploadToken, ai);
      && v.aiHost == d.aiHost && v.aiModel == d.aiModel && v.aiPrompt == d.aiPrompt
      && v.aiNumCtx == d.aiNumCtx && v.aiNumPredict == d.aiNumPredict
      && v.tuning == d.tuning
  {
    Admin.DeviceRowCounts(row, ai);
    AdminAgreesWithDevice(row);
  }

  /**
   * The fallbacks: a falsy revision reads as 1, a falsy frame size as "VGA",
   * a falsy upload URL as this server's `/upload` (without a doubled '/'),
   * a falsy upload token as the configured one; truthy columns are sent unchanged.
   */
  lemma ConfigFallbacks(row: Row, baseUrl: string, uploadToken: string, ai: AiDefaults)
    ensures var d := ConfigBody(row, baseUrl, uploadToken, ai);
      && (Truthy(ColumnOf(row, "config_rev")) ==> d.rev == ColumnOf(row, "config_rev"))
      && (!Truthy(ColumnOf(row, "config_rev")) ==> d.rev == PyInt(1))
      && (Truthy(ColumnOf(row, "framesize")) ==> d.framesize == ColumnOf(row, "framesize"))
      && (!Truthy(ColumnOf(row, "framesize")) ==> d.framesize == PyStr("VGA"))
      && (!Truthy(ColumnOf(row, "upload_url")) ==>
            d.uploadUrl.PyStr? && EndsWith(d.uploadUrl.s, "/upload") &&
            StartsWith(d.uploadUrl.s, RStripChar(baseUrl, '/')))
      && (Truthy(ColumnOf(row, "upload_token")) ==> d.uploadToken == ColumnOf(row, "upload_token"))
      && (!Truthy(ColumnOf(row, "upload_token")) ==> d.uploadToken == PyStr(uploadToken))
      && Truthy(d.rev) && Truthy(d.framesize) && Truthy(d.uploadUrl)
  {
    var base := RStripChar(baseUrl, '/');
    var u := base + "/upload";
    assert u[|u| - 7..] == "/upload";
    assert u[..|base|] == base;
  }

  /**
   * The counts the device receives are positive whenever the defaults are,
   * and the AI texts are stripped whenever the defaults are.
   */
  lemma ConfigAiSettings(row: Row, baseUrl: string, uploadToken: string, ai: AiDefaults)
    requires ai.numCtx > 0 && ai.numPredict > 0
    requires Strip(ai.host) == ai.host && Strip(ai.model) == ai.model && Strip(ai.prompt) == ai.prompt
    ensures var d := ConfigBody(row, baseUrl, uploadToken, ai);
      && d.aiNumCtx > 0 && d.aiNumPredict > 0
      && Strip(d.aiHost) == d.aiHost && Strip(d.aiModel) == d.aiModel
      && Strip(d.aiPrompt) == d.aiPrompt
  {
    CleanIntSpec(ColumnOf(row, "ai_num_ctx"), ai.numCtx);
    CleanIntSpec(ColumnOf(row, "ai_num_predict"), ai.numPredict);
    StrOrDefaultSpec(ColumnOf(row, "ai_host"), ai.host);
    StrOrDefaultSpec(ColumnOf(row, "ai_model"), ai.model);
    StrOrDefaultSpec(ColumnOf(row, "ai_prompt"), ai.prompt);
  }

  /** Every column of `r` reads as the body's encoded value when supplied, and as in `row` otherwise. */
  ghost predicate ReadsAsPatched(r: Row, row: Row, body: Admin.UpdateBody) {
    forall c :: ColumnOf(r, Admin.ColumnName(c)) ==
      if Admin.Supplied(body, c) then Admin.Encoded(body, c) else ColumnOf(row, Admin.ColumnName(c))
  }

  /** Storing the patch gives a row that reads as patched. */
  lemma ReadBack(row: Row, body: Admin.UpdateBody)
    ensures ReadsAsPatched(Admin.ApplyPatch(row, Admin.Patch(body)), row, body)
  {
  }

  /**
   * A flag the settings update sets is what the device then receives for
   * that column, whatever the reader's default.
   */
  lemma StoredFlagReads(row: Row, body: Admin.UpdateBody, c: Admin.Column, default: bool)
    requires Admin.FlagOf(body, c).Some?
    ensures RowBool(Admin.ApplyPatch(row, Admin.Patch(body)), Admin.ColumnName(c), default) ==
      Admin.FlagOf(body, c).value
  {
    ReadBack(row, body);
    Admin.FlagEncoding(body, c, default);
    assert Admin.Supplied(body, c);
  }

  /**
   * A number the settings update sets, within its declared bounds, is what
   * the device then reads for that column, and `_clamp` leaves it unchanged.
   */
  lemma StoredNumberReads(row: Row, body: Admin.UpdateBody, c: Admin.Column, default: int)
    requires Admin.BodyValid(body) && Admin.NumberOf(body, c).Some?
    ensures var n := RowInt(Admin.ApplyPatch(row, Admin.Patch(body)), Admin.ColumnName(c), default);
      && n == Admin.NumberOf(body, c).value
      && (c in {Admin.Brightness, Admin.Contrast, Admin.Saturation, Admin.Sharpness, Admin.AeLevel} ==> Clamp(n, -2, 2) == n)
      && (c == Admin.WbMode ==> Clamp(n, 0, 4) == n)
      && (c == Admin.SpecialEffect ==> Clamp(n, 0, 6) == n)
      && (c == Admin.Gainceiling ==> 0 <= n <= 5)
  {
    ReadBack(row, body);
    Admin.NumberEncoding(body, c, default);
    assert Admin.Supplied(body, c);
  }

  /** A column the settings update leaves out keeps its value, so every reader gives what it gave before. */
  lemma UnsuppliedKept(row: Row, body: Admin.UpdateBody, c: Admin.Column)
    requires !Admin.Supplied(body, c)
    ensures ColumnOf(Admin.ApplyPatch(row, Admin.Patch(body)), Admin.ColumnName(c)) == ColumnOf(row, Admin.ColumnName(c))
  {
    ReadBack(row, body);
  }
}
