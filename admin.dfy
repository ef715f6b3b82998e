/**
 * The admin API (`routes/admin.py`): the health URL probed for a device's
 * AI host, the view of a device row the admin page shows, and the sparse
 * patch a settings update writes back.
 *
 * URL parsing is modelled only as far as `urlparse` splits an
 * `http://` / `https://` URL into scheme, network location and path; the
 * database calls and the HTTP probe are not modelled.
 */
module Admin {
  import opened Strings
  import opened Wrappers
  import opened PyValues
  import opened Tuning
  import Upload
  import opened Analysis

  // ---------------------------------------------------------------------------
  // Health URL (`_build_ai_health_url`, lines 62-84)

  /** The parts of a URL the health URL is rebuilt from. */
  datatype UrlParts = UrlParts(scheme: string, netloc: string, path: string)

  /** The first index at or after `i` holding one of `stops`, or `|s|`. */
  function IndexOfAny(s: string, stops: set<char>, i: nat): (k: nat)
    requires i <= |s|
    ensures i <= k <= |s|
    ensures forall j | i <= j < k :: s[j] !in stops
    ensures k < |s| ==> s[k] in stops
    decreases |s| - i
  {
    if i == |s| || s[i] in stops then i else IndexOfAny(s, stops, i + 1)
  }

  /** The last index holding `c`, or -1. */
  function LastIndexOfChar(s: string, c: char): (k: int)
    ensures -1 <= k < |s|
    ensures k >= 0 ==> s[k] == c
    ensures forall j | k < j < |s| :: s[j] != c
  {
    if s == [] then -1
    else if s[|s| - 1] == c then |s| - 1
    else LastIndexOfChar(s[..|s| - 1], c)
  }

  /** `_splitparams`: the path without the `;params` of its last segment. */
  function WithoutParams(path: string): (r: string)
    ensures |r| <= |path| && r == path[..|r|]
  {
    var from := LastIndexOfChar(path, '/');
    var i := IndexOfChar(path, ';', if from >= 0 then from else 0);
    if i < 0 then path else path[..i]
  }

  /**
   * `urlparse` of a URL that starts with "http://" or "https://": the scheme,
   * the network location up to the first '/', '?' or '#', and the path up to
   * the first '?' or '#', without its parameters.
   */
  function SplitUrl(url: string): UrlParts
    requires StartsWith(url, "http://") || StartsWith(url, "https://")
  {
    var scheme := if StartsWith(url, "https://") then "https" else "http";
    var rest := url[|scheme| + 3..];
    var n := IndexOfAny(rest, {'/', '?', '#'}, 0);
    var p := IndexOfAny(rest, {'?', '#'}, n);
    UrlParts(scheme, rest[..n], WithoutParams(rest[n..p]))
  }

  /** The health path for the host's path, after its trailing '/' are dropped. */
  function HealthPath(rawPath: string): string {
    var path := RStripChar(rawPath, '/');
    if EndsWith(path, "/api") then path + "/tags"
    else if EndsWith(path, "/api/generate") then path[..|path| - |"/generate"|] + "/tags"
    else if Contains(path, "/api/generate") then
      var i := IndexOf(path, "/api/generate", 0);
      assert i >= 0 by { ContainsIndexOf(path, "/api/generate"); }
      path[..i] + "/api" + "/tags"
    else if path != [] then path + "/api/tags" else "/api/tags"
  }

  /** `_build_ai_health_url(host)`. */
  function HealthUrl(host: string): Option<string> {
    if host == [] then None
    else
      var h := Strip(host);
      if h == [] then None
      else
        var url := if !StartsWith(h, "http://") && !StartsWith(h, "https://") then "http://" + h else h;
        assert StartsWith(url, "http://") || StartsWith(url, "https://");
        var parts := SplitUrl(url);
        if parts.netloc == [] then None
        else Some(parts.scheme + "://" + parts.netloc + HealthPath(parts.path))
  }

  lemma ContainsIndexOf(s: string, p: string)
    requires p != []
    ensures Contains(s, p) <==> IndexOf(s, p, 0) >= 0
  {
    IndexOfFirst(s, p, 0);
    if IndexOf(s, p, 0) >= 0 {
      assert OccursAt(s, p, IndexOf(s, p, 0));
    }
  }

  lemma EndsWithJoin(p: string, q: string)
    requires |q| >= 5 && EndsWith(p, q[..|q| - 5]) && q[|q| - 5..] == "/tags"
    ensures EndsWith(p + "/tags", q)
  {
    var s := p + "/tags";
    var k := |q| - 5;
    assert s[|s| - |q|..] == s[|p| - k..|p|] + s[|p|..];
    assert s[|p| - k..|p|] == p[|p| - k..];
    assert s[|p|..] == "/tags";
    assert q == q[..k] + q[k..];
  }

  /** The health path always ends with "/api/tags" and starts with '/' for a '/'-rooted path. */
  lemma HealthPathSpec(rawPath: string)
    ensures EndsWith(HealthPath(rawPath), "/api/tags")
    ensures (rawPath == [] || rawPath[0] == '/') ==> HealthPath(rawPath)[0] == '/'
  {
    var path := RStripChar(rawPath, '/');
    var r := HealthPath(rawPath);
    assert "/api/tags"[..4] == "/api" && "/api/tags"[4..] == "/tags";
    if EndsWith(path, "/api") {
      EndsWithJoin(path, "/api/tags");
    } else if EndsWith(path, "/api/generate") {
      var b := path[..|path| - 9];
      assert b[|b| - 4..] == path[|path| - 13..|path| - 9];
      EndsWithJoin(b, "/api/tags");
    } else if Contains(path, "/api/generate") {
      ContainsIndexOf(path, "/api/generate");
      var i := IndexOf(path, "/api/generate", 0);
      assert r == path[..i] + "/api" + "/tags";
      assert r[|r| - 9..] == "/api/tags";
    } else if path != [] {
      assert r[|r| - 9..] == "/api/tags";
    }
  }

  /** A path naming any generate endpoint is turned into the tags endpoint next to it. */
  lemma HealthPathOfGenerate(prefix: string)
    requires !Contains(prefix + "/api", "/api/generate")
    ensures HealthPath(prefix + "/api/generate") == prefix + "/api/tags"
    ensures HealthPath(prefix + "/api") == prefix + "/api/tags"
  {
    var p := prefix + "/api/generate";
    assert RStripChar(p, '/') == p;
    assert p[|p| - 4..] == "rate";
    assert EndsWith(p, "/api/generate") by {
      assert p[|p| - 13..] == "/api/generate";
    }
    assert p[..|p| - 9] == prefix + "/api";
    var q := prefix + "/api";
    assert RStripChar(q, '/') == q;
    assert EndsWith(q, "/api") by {
      assert q[|q| - 4..] == "/api";
    }
  }

  /** Text free of the '?' and '#' that start a query or a fragment. */
  predicate Plain(s: string) {
    forall j | 0 <= j < |s| :: s[j] != '?' && s[j] != '#'
  }

  lemma PlainAppend(a: string, b: string)
    requires Plain(a) && Plain(b)
    ensures Plain(a + b)
  {
    forall j | 0 <= j < |a + b| ensures (a + b)[j] != '?' && (a + b)[j] != '#' {
      if j >= |a| {
        assert (a + b)[j] == b[j - |a|];
      }
    }
  }

  lemma PlainSlice(s: string, i: nat, k: nat)
    requires Plain(s) && i <= k <= |s|
    ensures Plain(s[i..k])
  {
    forall j | 0 <= j < k - i ensures s[i..k][j] != '?' && s[i..k][j] != '#' {
      assert s[i..k][j] == s[i + j];
    }
  }

  /** The network location and path contain no '?' or '#'. */
  lemma SplitUrlFacts(url: string)
    requires StartsWith(url, "http://") || StartsWith(url, "https://")
    ensures var parts := SplitUrl(url);
      && (parts.scheme == "http" || parts.scheme == "https")
      && Plain(parts.netloc) && Plain(parts.path)
  {
    var scheme := if StartsWith(url, "https://") then "https" else "http";
    var rest := url[|scheme| + 3..];
    var n := IndexOfAny(rest, {'/', '?', '#'}, 0);
    var p := IndexOfAny(rest, {'?', '#'}, n);
    var path := rest[n..p];
    assert Plain(rest[..n]) by {
      forall j | 0 <= j < n ensures rest[..n][j] != '?' && rest[..n][j] != '#' {
        assert rest[..n][j] == rest[j];
      }
    }
    assert Plain(path) by {
      forall j | 0 <= j < |path| ensures path[j] != '?' && path[j] != '#' {
        assert path[j] == rest[n + j];
      }
    }
    PlainSlice(path, 0, |WithoutParams(path)|);
  }

  /** Rewriting a path free of '?' and '#' adds neither. */
  lemma HealthPathClean(rawPath: string)
    requires Plain(rawPath)
    ensures Plain(HealthPath(rawPath))
  {
    var path := RStripChar(rawPath, '/');
    PlainSlice(rawPath, 0, |path|);
    assert Plain("/tags") && Plain("/api") && Plain("/api/tags");
    if EndsWith(path, "/api") {
      PlainAppend(path, "/tags");
    } else if EndsWith(path, "/api/generate") {
      PlainSlice(path, 0, |path| - 9);
      PlainAppend(path[..|path| - 9], "/tags");
    } else if Contains(path, "/api/generate") {
      ContainsIndexOf(path, "/api/generate");
      var i := IndexOf(path, "/api/generate", 0);
      PlainSlice(path, 0, i);
      PlainAppend(path[..i], "/api");
      PlainAppend(path[..i] + "/api", "/tags");
    } else if path != [] {
      PlainAppend(path, "/api/tags");
    }
  }

  /** The rebuilt URL starts with its scheme and "://". */
  lemma SchemePrefix(scheme: string, rest: string)
    requires scheme == "http" || scheme == "https"
    ensures StartsWith(scheme + "://" + rest, "http://") || StartsWith(scheme + "://" + rest, "https://")
  {
    var u := scheme + "://" + rest;
    if scheme == "https" {
      assert u[..8] == "https://";
    } else {
      assert u[..7] == "http://";
    }
  }

  /** A URL rebuilt from a clean network location and path has the health URL's shape. */
  lemma RebuiltUrl(parts: UrlParts)
    requires parts.scheme == "http" || parts.scheme == "https"
    requires Plain(parts.netloc) && Plain(parts.path)
    ensures var u := parts.scheme + "://" + parts.netloc + HealthPath(parts.path);
      && (StartsWith(u, "http://") || StartsWith(u, "https://"))
      && EndsWith(u, "/api/tags")
      && Plain(u)
  {
    HealthPathSpec(parts.path);
    HealthPathClean(parts.path);
    UrlShape(parts.scheme, parts.netloc, HealthPath(parts.path));
  }

  /** A URL glued from an http(s) scheme, a clean location and a clean tags path. */
  lemma UrlShape(scheme: string, netloc: string, hp: string)
    requires scheme == "http" || scheme == "https"
    requires Plain(netloc) && Plain(hp) && EndsWith(hp, "/api/tags")
    ensures var u := scheme + "://" + netloc + hp;
      && (StartsWith(u, "http://") || StartsWith(u, "https://"))
      && EndsWith(u, "/api/tags")
      && Plain(u)
  {
    var head := scheme + "://" + netloc;
    SchemePrefix(scheme, netloc + hp);
    assert scheme + "://" + (netloc + hp) == head + hp;
    EndsWithExtend(head, hp, "/api/tags");
    assert Plain(scheme + "://") by {
      assert Plain("http://") && Plain("https://");
    }
    PlainAppend(scheme + "://", netloc);
    PlainAppend(head, hp);
  }

  lemma EndsWithExtend(a: string, b: string, q: string)
    requires EndsWith(b, q)
    ensures EndsWith(a + b, q)
  {
    assert (a + b)[|a + b| - |q|..] == b[|b| - |q|..];
  }

  /**
   * `_build_ai_health_url` gives nothing for an empty or blank host, or when
   * the URL has no network location; otherwise an http or https URL
   * (http added when the host names no scheme) whose path ends with
   * "/api/tags" and which carries no query or fragment.
   */
  lemma HealthUrlSpec(host: string)
    ensures Strip(host) == [] ==> HealthUrl(host) == None
    ensures HealthUrl(host).Some? ==>
      var u := HealthUrl(host).value;
      && (StartsWith(u, "http://") || StartsWith(u, "https://"))
      && EndsWith(u, "/api/tags")
      && Plain(u)
  {
    if HealthUrl(host).Some? {
      var h := Strip(host);
      var url := if !StartsWith(h, "http://") && !StartsWith(h, "https://") then "http://" + h else h;
      var parts := SplitUrl(url);
      assert HealthUrl(host).value == parts.scheme + "://" + parts.netloc + HealthPath(parts.path);
      SplitUrlFacts(url);
      RebuiltUrl(parts);
    }
  }

  lemma HealthPathEmpty()
    ensures HealthPath([]) == "/api/tags"
  {
    assert RStripChar([], '/') == [];
    assert !Contains([], "/api/generate") by {
      forall i: nat | i <= 0 ensures !OccursAt([], "/api/generate", i) {
      }
    }
  }

  /** A bare host name is probed over http at its tags endpoint. */
  lemma HealthUrlOfBareHost(name: string)
    requires name != [] && Strip(name) == name
    requires forall j | 0 <= j < |name| :: name[j] != '/' && name[j] != '?' && name[j] != '#'
    requires !StartsWith(name, "http://") && !StartsWith(name, "https://")
    ensures HealthUrl(name) == Some("http://" + name + "/api/tags")
  {
    var url := "http://" + name;
    assert url[7..] == name;
    assert StartsWith(url, "http://") by {
      assert url[..7] == "http://";
    }
    assert !StartsWith(url, "https://") by {
      assert url[4] == ':';
    }
    var n := IndexOfAny(name, {'/', '?', '#'}, 0);
    assert n == |name|;
    var q := IndexOfAny(name, {'?', '#'}, n);
    assert q == |name|;
    assert name[n..q] == [];
    assert WithoutParams([]) == [] by {
      assert LastIndexOfChar([], '/') == -1;
    }
    var parts := SplitUrl(url);
    assert parts == UrlParts("http", name, []);
    HealthPathEmpty();
    assert "http" + "://" + name + "/api/tags" == "http://" + name + "/api/tags";
  }

  // ---------------------------------------------------------------------------
  // The admin view of a device row (`_device_row`, lines 95-184)

  /** The computed parts of the view (columns copied unchanged are not modelled). */
  datatype DeviceView = DeviceView(
    lastImgUrls: seq<string>, aiHost: string, aiModel: string, aiPrompt: string,
    aiNumCtx: int, aiNumPredict: int, tuning: Tuning)

  function RowInt(row: Row, key: string, default: int): int {
    IntOrDefault(RowValue(Some(row), key), default)
  }

  function RowBool(row: Row, key: string, default: bool): bool {
    BoolOrDefault(RowValue(Some(row), key), default)
  }

  /** A positive count, or the fallback in place of a non-positive one. */
  function PositiveOr(n: int, fallback: int): int {
    if n <= 0 then fallback else n
  }

  /** The settings as `_device_row` clamps them, `max(lo, min(hi, v))` style. */
  function AdminTuning(row: Row): Tuning {
    var gain := RowInt(row, "gainceiling", 4);
    var gain2 := if gain < 0 then 0 else gain;
    var gain3 := if gain2 > 5 then 5 else gain2;
    Tuning(
      RowInt(row, "jpeg_quality", 15), RowInt(row, "upload_interval_sec", 10),
      RowBool(row, "auto_upload", true),
      RowBool(row, "whitebal", true), Max(0, Min(4, RowInt(row, "wb_mode", 0))),
      RowBool(row, "hmirror", false), RowBool(row, "vflip", false),
      Max(-2, Min(2, RowInt(row, "brightness", 0))), Max(-2, Min(2, RowInt(row, "contrast", 1))),
      Max(-2, Min(2, RowInt(row, "saturation", 1))), Max(-2, Min(2, RowInt(row, "sharpness", 1))),
      RowBool(row, "awb_gain", true), RowBool(row, "gain_ctrl", true),
      RowBool(row, "exposure_ctrl", true), gain3, Max(-2, Min(2, RowInt(row, "ae_level", 0))),
      RowBool(row, "lens_corr", true), RowBool(row, "raw_gma", true),
      RowBool(row, "bpc", true), RowBool(row, "wpc", true), RowBool(row, "dcw", true),
      RowBool(row, "colorbar", false),
      Max(0, Min(6, RowInt(row, "special_effect", 0))), RowBool(row, "low_light_boost", true))
  }

  /**
   * `_device_row(row)`: the view the admin page shows. Of the AI defaults
   * only the host, model and prompt are used; the two counts fall back to
   * the literals 1024 and 64.
   */
  function DeviceRow(row: Row, ai: AiDefaults): DeviceView {
    DeviceView(
      Upload.StoredUrls(Some(row)),
      StrOrDefault(RowValue(Some(row), "ai_host"), ai.host),
      StrOrDefault(RowValue(Some(row), "ai_model"), ai.model),
      StrOrDefault(RowValue(Some(row), "ai_prompt"), ai.prompt),
      PositiveOr(RowInt(row, "ai_num_ctx", 1024), 1024),
      PositiveOr(RowInt(row, "ai_num_predict", 64), 64),
      AdminTuning(row))
  }

  lemma MaxMinRange(lo: int, hi: int, v: int)
    requires lo <= hi
    ensures lo <= Max(lo, Min(hi, v)) <= hi
    ensures lo <= v <= hi ==> Max(lo, Min(hi, v)) == v
  {
  }

  /** Every clamped setting of the admin view lies in its range, whatever the row holds. */
  lemma AdminTuningInRange(row: Row)
    ensures InRange(AdminTuning(row))
  {
  }

  /** The two counts are positive, and each is what `_clean_int` makes of the column. */
  lemma DeviceRowCounts(row: Row, ai: AiDefaults)
    ensures var v := DeviceRow(row, ai);
      && v.aiNumCtx > 0 && v.aiNumPredict > 0
      && v.aiNumCtx == CleanInt(RowValue(Some(row), "ai_num_ctx"), 1024)
      && v.aiNumPredict == CleanInt(RowValue(Some(row), "ai_num_predict"), 64)
  {
    IntOrDefaultSpec(RowValue(Some(row), "ai_num_ctx"), 1024);
    IntOrDefaultSpec(RowValue(Some(row), "ai_num_predict"), 64);
  }

  /**
   * The stored image URLs are the newline-separated non-empty entries of the
   * column, so the list an upload stores reads back unchanged.
   */
  lemma DeviceRowUrls(row: Row, ai: AiDefaults, prev: Option<Row>, newUrl: string)
    requires newUrl != "" && '\n' !in newUrl
    requires "last_img_urls" in row
    requires row["last_img_urls"] == PyStr(Join(Upload.RecentImages(prev, newUrl, 20), "\n"))
    ensures DeviceRow(row, ai).lastImgUrls == Upload.RecentImages(prev, newUrl, 20)
    ensures forall k | 0 <= k < |DeviceRow(row, ai).lastImgUrls| :: DeviceRow(row, ai).lastImgUrls[k] != ""
  {
    var r := Upload.RecentImages(prev, newUrl, 20);
    Upload.HistoryRoundTrip(prev, newUrl, 20);
    assert Upload.StoredUrls(Some(row)) == Upload.StoredUrls(Some(Upload.RowWithHistory(Join(r, "\n"))));
    Upload.StoredUrlsSpec(Some(row));
  }

  // ---------------------------------------------------------------------------
  // The settings update (`update_device_config`, lines 187-309)

  /** The request body; `None` is a field the client left out. */
  datatype UpdateBody = UpdateBody(
    framesize: Option<string>, jpegQuality: Option<int>, uploadIntervalSec: Option<int>,
    autoUpload: Option<bool>, uploadUrl: Option<string>, uploadToken: Option<string>,
    whitebal: Option<bool>, wbMode: Option<int>, hmirror: Option<bool>, vflip: Option<bool>,
    brightness: Option<int>, contrast: Option<int>, saturation: Option<int>, sharpness: Option<int>,
    awbGain: Option<bool>, gainCtrl: Option<bool>, exposureCtrl: Option<bool>,
    gainceiling: Option<int>, aeLevel: Option<int>, lensCorr: Option<bool>, rawGma: Option<bool>,
    bpc: Option<bool>, wpc: Option<bool>, dcw: Option<bool>, colorbar: Option<bool>,
    specialEffect: Option<int>, lowLightBoost: Option<bool>,
    aiHost: Option<string>, aiModel: Option<string>, aiPrompt: Option<string>,
    aiNumCtx: Option<int>, aiNumPredict: Option<int>)

  /** The bounds the body's field declarations enforce before the handler runs. */
  predicate Within(v: Option<int>, lo: int, hi: int) {
    v.None? || lo <= v.value <= hi
  }

  predicate BodyValid(b: UpdateBody) {
    && Within(b.jpegQuality, 5, 63) && Within(b.uploadIntervalSec, 1, 3600)
    && Within(b.wbMode, 0, 4)
    && Within(b.brightness, -2, 2) && Within(b.contrast, -2, 2)
    && Within(b.saturation, -2, 2) && Within(b.sharpness, -2, 2)
    && Within(b.gainceiling, 0, 5) && Within(b.aeLevel, -2, 2)
    && Within(b.specialEffect, 0, 6)
    && (b.aiNumCtx.None? || b.aiNumCtx.value >= 1)
    && (b.aiNumPredict.None? || b.aiNumPredict.value >= 1)
  }

  /** The device columns a patch can write. */
  datatype Column =
    | Framesize | JpegQuality | UploadIntervalSec | AutoUpload | UploadUrl | UploadToken
    | Whitebal | WbMode | Hmirror | Vflip | Brightness | Contrast | Saturation | Sharpness
    | AwbGain | GainCtrl | ExposureCtrl | Gainceiling | AeLevel | LensCorr | RawGma
    | Bpc | Wpc | Dcw | Colorbar | SpecialEffect | LowLightBoost
    | AiHost | AiModel | AiPrompt | AiNumCtx | AiNumPredict

  /** The database column each patch key names. */
  function ColumnName(c: Column): string {
    match c
    case Framesize => "framesize" case JpegQuality => "jpeg_quality"
    case UploadIntervalSec => "upload_interval_sec" case AutoUpload => "auto_upload"
    case UploadUrl => "upload_url" case UploadToken => "upload_token"
    case Whitebal => "whitebal" case WbMode => "wb_mode" case Hmirror => "hmirror"
    case Vflip => "vflip" case Brightness => "brightness" case Contrast => "contrast"
    case Saturation => "saturation" case Sharpness => "sharpness" case AwbGain => "awb_gain"
    case GainCtrl => "gain_ctrl" case ExposureCtrl => "exposure_ctrl"
    case Gainceiling => "gainceiling" case AeLevel => "ae_level" case LensCorr => "lens_corr"
    case RawGma => "raw_gma" case Bpc => "bpc" case Wpc => "wpc" case Dcw => "dcw"
    case Colorbar => "colorbar" case SpecialEffect => "special_effect"
    case LowLightBoost => "low_light_boost" case AiHost => "ai_host" case AiModel => "ai_model"
    case AiPrompt => "ai_prompt" case AiNumCtx => "ai_num_ctx" case AiNumPredict => "ai_num_predict"
  }

  /** The patch key a column name stands for, if any (names grouped by length). */
  function NamedColumn(name: string): Option<Column> {
    if |name| == 3 then if name == "bpc" then Some(Bpc) else if name == "wpc" then Some(Wpc) else if name == "dcw" then Some(Dcw) else None
    else if |name| == 5 then if name == "vflip" then Some(Vflip) else None
    else if |name| == 7 then if name == "wb_mode" then Some(WbMode) else if name == "hmirror" then Some(Hmirror) else if name == "raw_gma" then Some(RawGma) else if name == "ai_host" then Some(AiHost) else None
    else if |name| == 8 then if name == "whitebal" then Some(Whitebal) else if name == "contrast" then Some(Contrast) else if name == "awb_gain" then Some(AwbGain) else if name == "ae_level" then Some(AeLevel) else if name == "colorbar" then Some(Colorbar) else if name == "ai_model" then Some(AiModel) else None
    else if |name| == 9 then if name == "framesize" then Some(Framesize) else if name == "sharpness" then Some(Sharpness) else if name == "gain_ctrl" then Some(GainCtrl) else if name == "lens_corr" then Some(LensCorr) else if name == "ai_prompt" then Some(AiPrompt) else None
    else if |name| == 10 then if name == "upload_url" then Some(UploadUrl) else if name == "brightness" then Some(Brightness) else if name == "saturation" then Some(Saturation) else if name == "ai_num_ctx" then Some(AiNumCtx) else None
    else if |name| == 11 then if name == "auto_upload" then Some(AutoUpload) else if name == "gainceiling" then Some(Gainceiling) else None
    else if |name| == 12 then if name == "jpeg_quality" then Some(JpegQuality) else if name == "upload_token" then Some(UploadToken) else None
    else if |name| == 13 then if name == "exposure_ctrl" then Some(ExposureCtrl) else None
    else if |name| == 14 then if name == "special_effect" then Some(SpecialEffect) else if name == "ai_num_predict" then Some(AiNumPredict) else None
    else if |name| == 15 then if name == "low_light_boost" then Some(LowLightBoost) else None
    else if |name| == 19 then if name == "upload_interval_sec" then Some(UploadIntervalSec) else None
    else None
  }

  lemma NamedColumnInverse()
    ensures forall c :: NamedColumn(ColumnName(c)) == Some(c)
  {
    forall c ensures NamedColumn(ColumnName(c)) == Some(c) {
      match c
      case Framesize =>
      case JpegQuality =>
      case UploadIntervalSec =>
      case AutoUpload =>
      case UploadUrl =>
      case UploadToken =>
      case Whitebal =>
      case WbMode =>
      case Hmirror =>
      case Vflip =>
      case Brightness =>
      case Contrast =>
      case Saturation =>
      case Sharpness =>
      case AwbGain =>
      case GainCtrl =>
      case ExposureCtrl =>
      case Gainceiling =>
      case AeLevel =>
      case LensCorr =>
      case RawGma =>
      case Bpc =>
      case Wpc =>
      case Dcw =>
      case Colorbar =>
      case SpecialEffect =>
      case LowLightBoost =>
      case AiHost =>
      case AiModel =>
      case AiPrompt =>
      case AiNumCtx =>
      case AiNumPredict =>
    }
  }

  /** The body's flag for a flag column. */
  function FlagOf(b: UpdateBody, c: Column): Option<bool> {
    match c
    case AutoUpload => b.autoUpload case Whitebal => b.whitebal case Hmirror => b.hmirror
    case Vflip => b.vflip case AwbGain => b.awbGain case GainCtrl => b.gainCtrl
    case ExposureCtrl => b.exposureCtrl case LensCorr => b.lensCorr case RawGma => b.rawGma
    case Bpc => b.bpc case Wpc => b.wpc case Dcw => b.dcw case Colorbar => b.colorbar
    case LowLightBoost => b.lowLightBoost
    case _ => None
  }

  /** The body's number for a numeric column. */
  function NumberOf(b: UpdateBody, c: Column): Option<int> {
    match c
    case JpegQuality => b.jpegQuality case UploadIntervalSec => b.uploadIntervalSec
    case WbMode => b.wbMode case Brightness => b.brightness case Contrast => b.contrast
    case Saturation => b.saturation case Sharpness => b.sharpness
    case Gainceiling => b.gainceiling case AeLevel => b.aeLevel
    case SpecialEffect => b.specialEffect case AiNumCtx => b.aiNumCtx
    case AiNumPredict => b.aiNumPredict
    case _ => None
  }

  /**
   * A column is written when the body supplies its field: any value for most
   * fields, a non-empty one for the frame size and the upload token.
   */
  predicate Supplied(b: UpdateBody, c: Column) {
    match c
    case Framesize => b.framesize.Some? && b.framesize.value != ""
    case JpegQuality => b.jpegQuality.Some? case UploadIntervalSec => b.uploadIntervalSec.Some?
    case AutoUpload => b.autoUpload.Some? case UploadUrl => b.uploadUrl.Some?
    case UploadToken => b.uploadToken.Some? && b.uploadToken.value != ""
    case Whitebal => b.whitebal.Some? case WbMode => b.wbMode.Some?
    case Hmirror => b.hmirror.Some? case Vflip => b.vflip.Some?
    case Brightness => b.brightness.Some? case Contrast => b.contrast.Some?
    case Saturation => b.saturation.Some? case Sharpness => b.sharpness.Some?
    case AwbGain => b.awbGain.Some? case GainCtrl => b.gainCtrl.Some?
    case ExposureCtrl => b.exposureCtrl.Some? case Gainceiling => b.gainceiling.Some?
    case AeLevel => b.aeLevel.Some? case LensCorr => b.lensCorr.Some?
    case RawGma => b.rawGma.Some? case Bpc => b.bpc.Some? case Wpc => b.wpc.Some?
    case Dcw => b.dcw.Some? case Colorbar => b.colorbar.Some?
    case SpecialEffect => b.specialEffect.Some? case LowLightBoost => b.lowLightBoost.Some?
    case AiHost => b.aiHost.Some? case AiModel => b.aiModel.Some?
    case AiPrompt => b.aiPrompt.Some? case AiNumCtx => b.aiNumCtx.Some?
    case AiNumPredict => b.aiNumPredict.Some?
  }

  /** A flag as the 1/0 the table stores. */
  function Flag(v: bool): PyValue {
    PyInt(if v then 1 else 0)
  }

  /** The value a supplied column is written with: flags as 1/0, two numbers clamped. */
  function Encoded(b: UpdateBody, c: Column): PyValue {
    match c
    case Framesize => PyStr(b.framesize.GetOr(""))
    case JpegQuality => PyInt(b.jpegQuality.GetOr(0))
    case UploadIntervalSec => PyInt(b.uploadIntervalSec.GetOr(0))
    case AutoUpload => Flag(b.autoUpload.GetOr(false))
    case UploadUrl => PyStr(b.uploadUrl.GetOr(""))
    case UploadToken => PyStr(b.uploadToken.GetOr(""))
    case Whitebal => Flag(b.whitebal.GetOr(false))
    case WbMode => PyInt(b.wbMode.GetOr(0))
    case Hmirror => Flag(b.hmirror.GetOr(false))
    case Vflip => Flag(b.vflip.GetOr(false))
    case Brightness => PyInt(b.brightness.GetOr(0))
    case Contrast => PyInt(b.contrast.GetOr(0))
    case Saturation => PyInt(b.saturation.GetOr(0))
    case Sharpness => PyInt(b.sharpness.GetOr(0))
    case AwbGain => Flag(b.awbGain.GetOr(false))
    case GainCtrl => Flag(b.gainCtrl.GetOr(false))
    case ExposureCtrl => Flag(b.exposureCtrl.GetOr(false))
    case Gainceiling => PyInt(Max(0, Min(5, b.gainceiling.GetOr(0))))
    case AeLevel => PyInt(b.aeLevel.GetOr(0))
    case LensCorr => Flag(b.lensCorr.GetOr(false))
    case RawGma => Flag(b.rawGma.GetOr(false))
    case Bpc => Flag(b.bpc.GetOr(false))
    case Wpc => Flag(b.wpc.GetOr(false))
    case Dcw => Flag(b.dcw.GetOr(false))
    case Colorbar => Flag(b.colorbar.GetOr(false))
    case SpecialEffect => PyInt(Max(0, Min(6, b.specialEffect.GetOr(0))))
    case LowLightBoost => Flag(b.lowLightBoost.GetOr(false))
    case AiHost => PyStr(b.aiHost.GetOr(""))
    case AiModel => PyStr(b.aiModel.GetOr(""))
    case AiPrompt => PyStr(b.aiPrompt.GetOr(""))
    case AiNumCtx => PyInt(b.aiNumCtx.GetOr(0))
    case AiNumPredict => PyInt(b.aiNumPredict.GetOr(0))
  }

  /** Every column, once. */
  const AllColumns: set<Column> := {
    Framesize, JpegQuality, UploadIntervalSec, AutoUpload, UploadUrl, UploadToken, Whitebal,
    WbMode, Hmirror, Vflip, Brightness, Contrast, Saturation, Sharpness, AwbGain, GainCtrl,
    ExposureCtrl, Gainceiling, AeLevel, LensCorr, RawGma, Bpc, Wpc, Dcw, Colorbar,
    SpecialEffect, LowLightBoost, AiHost, AiModel, AiPrompt, AiNumCtx, AiNumPredict}

  lemma AllColumnsComplete()
    ensures forall c :: c in AllColumns
  {
    forall c ensures c in AllColumns {
      match c
      case Framesize => case JpegQuality => case UploadIntervalSec => case AutoUpload =>
      case UploadUrl => case UploadToken => case Whitebal => case WbMode => case Hmirror =>
      case Vflip => case Brightness => case Contrast => case Saturation => case Sharpness =>
      case AwbGain => case GainCtrl => case ExposureCtrl => case Gainceiling => case AeLevel =>
      case LensCorr => case RawGma => case Bpc => case Wpc => case Dcw => case Colorbar =>
      case SpecialEffect => case LowLightBoost => case AiHost => case AiModel =>
      case AiPrompt => case AiNumCtx => case AiNumPredict =>
    }
  }

  /**
   * The patch `update_device_config` collects: each supplied column with its
   * encoded value. The handler inserts the columns one after another; the
   * insertions touch distinct keys, so the dict it ends with is this map.
   */
  function Patch(body: UpdateBody): (patch: map<Column, PyValue>)
    ensures forall c :: c in patch <==> Supplied(body, c)
    ensures forall c | c in patch :: patch[c] == Encoded(body, c)
  {
    AllColumnsComplete();
    map c | c in AllColumns && Supplied(body, c) :: Encoded(body, c)
  }

  /** What `update_device_config` did: 404 for an unknown device, or the patch and whether it was written. */
  datatype UpdateResult = NotFound | Updated(patch: map<Column, PyValue>, written: bool)

  /** `update_device_config(device_id, body)` for the device's row, nothing else of the table. */
  function UpdateDeviceConfig(row: Option<Row>, body: UpdateBody): UpdateResult {
    if row.None? then NotFound
    else
      var patch := Patch(body);
      Updated(patch, patch != map[])
  }

  /**
   * An unknown device is refused with 404; for a known one the patch holds
   * exactly the supplied columns with their encoded values, and it is
   * written exactly when some column is supplied.
   */
  lemma UpdateDeviceConfigSpec(row: Option<Row>, body: UpdateBody)
    ensures UpdateDeviceConfig(row, body).NotFound? <==> row.None?
    ensures UpdateDeviceConfig(row, body).Updated? ==>
      var r := UpdateDeviceConfig(row, body);
      && (forall c :: c in r.patch <==> Supplied(body, c))
      && (forall c | c in r.patch :: r.patch[c] == Encoded(body, c))
      && (r.written <==> exists c :: Supplied(body, c))
  {
    if row.Some? {
      var r := UpdateDeviceConfig(row, body);
      if exists c :: Supplied(body, c) {
        var c :| Supplied(body, c);
        assert c in r.patch;
      }
    }
  }

  /** The names of the columns a patch sets. */
  function PatchNames(patch: map<Column, PyValue>): set<string> {
    set c | c in patch :: ColumnName(c)
  }

  /**
   * `update_config(device_id, patch)` on the device's row: the patched
   * columns take their new values and every other column keeps its own.
   */
  function ApplyPatch(row: Row, patch: map<Column, PyValue>): (r: Row)
    ensures forall c | c in patch :: ColumnName(c) in r && r[ColumnName(c)] == patch[c]
    ensures forall c | c !in patch :: RowValue(Some(r), ColumnName(c)) == RowValue(Some(row), ColumnName(c))
    ensures forall k | k in row && NamedColumn(k).None? :: k in r && r[k] == row[k]
  {
    NamedColumnInverse();
    map k | k in row.Keys + PatchNames(patch) ::
      if NamedColumn(k).Some? && NamedColumn(k).value in patch then patch[NamedColumn(k).value] else row[k]
  }

  /** A body whose only fields are the given frame size and upload token. */
  function BodyWith(framesize: Option<string>, uploadToken: Option<string>): UpdateBody {
    UpdateBody(framesize, None, None, None, None, uploadToken, None, None, None, None,
      None, None, None, None, None, None, None, None, None, None, None,
      None, None, None, None, None, None, None, None, None, None, None)
  }

  /** An empty frame size or upload token counts as not supplied, so such a body writes nothing. */
  lemma EmptyTextsWriteNothing(row: Row, framesize: Option<string>, uploadToken: Option<string>)
    requires framesize.None? || framesize.value == ""
    requires uploadToken.None? || uploadToken.value == ""
    ensures UpdateDeviceConfig(Some(row), BodyWith(framesize, uploadToken)) == Updated(map[], false)
  {
    var body := BodyWith(framesize, uploadToken);
    forall c ensures !Supplied(body, c) {
      match c
      case Framesize => case JpegQuality => case UploadIntervalSec => case AutoUpload =>
      case UploadUrl => case UploadToken => case Whitebal => case WbMode => case Hmirror =>
      case Vflip => case Brightness => case Contrast => case Saturation => case Sharpness =>
      case AwbGain => case GainCtrl => case ExposureCtrl => case Gainceiling => case AeLevel =>
      case LensCorr => case RawGma => case Bpc => case Wpc => case Dcw => case Colorbar =>
      case SpecialEffect => case LowLightBoost => case AiHost => case AiModel =>
      case AiPrompt => case AiNumCtx => case AiNumPredict =>
    }
    assert Patch(body) == map[];
  }

  /**
   * Flags are stored as 1 or 0, and the admin and device readers turn the
   * stored value back into the flag the body sent, whatever their default.
   */
  lemma FlagEncoding(body: UpdateBody, c: Column, default: bool)
    requires FlagOf(body, c).Some?
    ensures Encoded(body, c) == PyInt(1) || Encoded(body, c) == PyInt(0)
    ensures BoolOrDefault(Encoded(body, c), default) == FlagOf(body, c).value
  {
  }

  /** The gain ceiling and special effect are stored clamped to [0, 5] and [0, 6]. */
  lemma ClampedColumns(body: UpdateBody)
    ensures Encoded(body, Gainceiling).PyInt? && 0 <= Encoded(body, Gainceiling).i <= 5
    ensures Encoded(body, SpecialEffect).PyInt? && 0 <= Encoded(body, SpecialEffect).i <= 6
  {
  }

  /**
   * For a body within its declared bounds every number is stored as sent,
   * so the integer readers give it back whatever their default.
   */
  lemma NumberEncoding(body: UpdateBody, c: Column, default: int)
    requires BodyValid(body) && NumberOf(body, c).Some?
    ensures Encoded(body, c) == PyInt(NumberOf(body, c).value)
    ensures IntOrDefault(Encoded(body, c), default) == NumberOf(body, c).value
  {
  }
}
