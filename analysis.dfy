/**
 * The pure parts of `run_ollama_analysis` (`routes/upload.py`): whether an
 * analysis is attempted at all, the numbers and prompt sent, and how the
 * answer's text is taken out of the JSON reply. The HTTP request, reading
 * and base64-encoding the image, and assembling the endpoint URL from the
 * host are not modelled; the endpoint's path is `Upload.GeneratePath`.
 */
module Analysis {
  import opened Strings
  import opened Wrappers
  import opened PyValues

  /** The configured fallbacks (`DEFAULT_AI_*`, read from the environment). */
  datatype AiDefaults = AiDefaults(host: string, model: string, prompt: string, numCtx: int, numPredict: int)

  /** The defaults the configuration uses when the environment sets none. */
  const SHIPPED_DEFAULTS: AiDefaults :=
    AiDefaults("http://192.168.1.90:11434", "gemma3:12b",
               "Bu resimde ne goruyorsun, kisaca tanimla? {path}", 1024, 64)

  /** What is sent to the model: its name, the prompt, and the two options when set. */
  datatype Request = Request(host: string, model: string, prompt: string,
                             numCtx: Option<int>, numPredict: Option<int>)

  /** `str(x or default or "").strip()`. */
  function SettingText(v: PyValue, default: string): string {
    Strip(Text(Or(Or(v, PyStr(default)), PyStr(""))))
  }

  /** `Path(p).name` for a path that does not end in '/': the text after the last '/'. */
  function BaseName(p: string): string {
    var parts := SplitOn(p, '/');
    parts[|parts| - 1]
  }

  /** The three placeholder substitutions, in the order the source makes them. */
  function Prompt(template: string, urlPath: string, filePath: string): string {
    var p := Replace(template, "{url}", urlPath);
    var p2 := Replace(p, "{path}", filePath);
    Replace(p2, "{filename}", BaseName(filePath))
  }

  /** A positive setting becomes an option; `if num_ctx:` skips zero. */
  function OptionOf(n: int): Option<int> {
    if n != 0 then Some(n) else None
  }

  /**
   * The request `run_ollama_analysis(row, file_path, url_path)` would send,
   * or `None` when host, model or prompt template is missing.
   */
  function AnalysisRequest(row: Option<Row>, cfg: AiDefaults, filePath: string, urlPath: string): Option<Request> {
    var host := SettingText(RowValue(row, "ai_host"), cfg.host);
    var model := SettingText(RowValue(row, "ai_model"), cfg.model);
    var template := Or(RowValue(row, "ai_prompt"), PyStr(cfg.prompt));
    if host == [] || model == [] || !Truthy(template) then None
    else
      var numCtx := NormalizeInt(RowValue(row, "ai_num_ctx"), cfg.numCtx);
      var numPredict := NormalizeInt(RowValue(row, "ai_num_predict"), cfg.numPredict);
      Some(Request(host, model, Prompt(Text(template), urlPath, filePath), OptionOf(numCtx), OptionOf(numPredict)))
  }

  // ---------------------------------------------------------------------------
  // The reply

  /** A JSON scalar in the reply (floats and objects are not modelled). */
  datatype JsonScalar = JNull | JBool(b: bool) | JNum(n: int) | JText(s: string)

  /** The value of a reply field: a scalar (`JNull` when absent) or a list of scalars. */
  datatype JsonField = Scalar(v: JsonScalar) | List(items: seq<JsonScalar>)

  predicate ScalarTruthy(v: JsonScalar) {
    match v
    case JNull => false
    case JBool(b) => b
    case JNum(n) => n != 0
    case JText(s) => s != []
  }

  predicate FieldTruthy(f: JsonField) {
    match f
    case Scalar(v) => ScalarTruthy(v)
    case List(items) => items != []
  }

  /** Python `str()` of a scalar. */
  function ScalarText(v: JsonScalar): string {
    match v
    case JNull => "None"
    case JBool(b) => if b then "True" else "False"
    case JNum(n) => IntToString(n)
    case JText(s) => s
  }

  /** `str(part) for part in items if part`. */
  function TruthyTexts(items: seq<JsonScalar>): seq<string>
    decreases |items|
  {
    if items == [] then []
    else (if ScalarTruthy(items[0]) then [ScalarText(items[0])] else []) + TruthyTexts(items[1..])
  }

  /** The text a chosen field gives: joined when it is a list, then stripped if truthy. */
  function FieldText(f: JsonField): Option<string> {
    var text := if f.List? then Join(TruthyTexts(f.items), " ") else ScalarText(f.v);
    var truthy := if f.List? then text != [] else ScalarTruthy(f.v);
    if truthy then Some(Strip(text)) else None
  }

  /** `data.get("response") or data.get("output") or data.get("text")`, then `FieldText`. */
  function ReplyText(response: JsonField, output: JsonField, text: JsonField): Option<string> {
    var chosen := if FieldTruthy(response) then response else if FieldTruthy(output) then output else text;
    FieldText(chosen)
  }

  // ---------------------------------------------------------------------------
  // Properties

  /**
   * An analysis is attempted only with a non-blank host and model and a
   * truthy prompt template; the row's settings win over the defaults, and
   * both numbers sent are positive whenever the defaults are.
   */
  lemma AnalysisRequestSpec(row: Option<Row>, cfg: AiDefaults, filePath: string, urlPath: string)
    ensures var r := AnalysisRequest(row, cfg, filePath, urlPath);
      && (r.Some? <==>
            SettingText(RowValue(row, "ai_host"), cfg.host) != [] &&
            SettingText(RowValue(row, "ai_model"), cfg.model) != [] &&
            (Truthy(RowValue(row, "ai_prompt")) || cfg.prompt != []))
      && (r.Some? ==> Strip(r.value.host) == r.value.host && Strip(r.value.model) == r.value.model)
      && (r.Some? && cfg.numCtx > 0 ==> r.value.numCtx.Some? && r.value.numCtx.value > 0)
      && (r.Some? && cfg.numPredict > 0 ==> r.value.numPredict.Some? && r.value.numPredict.value > 0)
  {
    var r := AnalysisRequest(row, cfg, filePath, urlPath);
    if r.Some? {
      StripIdempotent(Text(Or(Or(RowValue(row, "ai_host"), PyStr(cfg.host)), PyStr(""))));
      StripIdempotent(Text(Or(Or(RowValue(row, "ai_model"), PyStr(cfg.model)), PyStr(""))));
      NormalizeIsClean(RowValue(row, "ai_num_ctx"), cfg.numCtx);
      NormalizeIsClean(RowValue(row, "ai_num_predict"), cfg.numPredict);
      CleanIntSpec(RowValue(row, "ai_num_ctx"), cfg.numCtx);
      CleanIntSpec(RowValue(row, "ai_num_predict"), cfg.numPredict);
    }
  }

  /** A device row's own host and model, when set, are used as they are (stripped). */
  lemma RowSettingWins(v: string, default: string)
    requires v != []
    ensures SettingText(PyStr(v), default) == Strip(v)
  {
  }

  /** With nothing to replace, the template is sent unchanged. */
  lemma PromptWithoutPlaceholders(template: string, urlPath: string, filePath: string)
    requires !Contains(template, "{url}") && !Contains(template, "{path}") && !Contains(template, "{filename}")
    ensures Prompt(template, urlPath, filePath) == template
  {
    ReplaceAbsent(template, "{url}", urlPath);
    ReplaceAbsent(template, "{path}", filePath);
    ReplaceAbsent(template, "{filename}", BaseName(filePath));
  }

  /** A character that cannot start the pattern is copied and the scan moves on. */
  lemma ReplaceSkipsChar(c: char, rest: string, pat: string, rep: string)
    requires pat != [] && c != pat[0]
    ensures Replace([c] + rest, pat, rep) == [c] + Replace(rest, pat, rep)
  {
    var t := [c] + rest;
    assert t[1..] == rest;
    if |t| >= |pat| {
      assert t[..|pat|][0] == c;
    }
  }

  /** Text without '{' passes through any brace placeholder untouched. */
  lemma {:induction false} ReplaceBraceFree(pre: string, s: string, pat: string, rep: string)
    requires pat != [] && pat[0] == '{' && '{' !in pre
    ensures Replace(pre + s, pat, rep) == pre + Replace(s, pat, rep)
    decreases |pre|
  {
    if pre == [] {
      assert pre + s == s;
    } else {
      var c, tail := pre[0], pre[1..];
      assert c != pat[0];
      assert pre + s == [c] + (tail + s);
      calc {
        Replace(pre + s, pat, rep);
        { ReplaceSkipsChar(c, tail + s, pat, rep); }
        [c] + Replace(tail + s, pat, rep);
        { ReplaceBraceFree(tail, s, pat, rep); }
        [c] + (tail + Replace(s, pat, rep));
        { assert [c] + tail == pre; }
        pre + Replace(s, pat, rep);
      }
    }
  }

  /** The pattern alone is replaced by the replacement. */
  lemma ReplaceWhole(pat: string, rep: string)
    requires pat != []
    ensures Replace(pat, pat, rep) == rep
  {
    assert pat[..|pat|] == pat && pat[|pat|..] == [];
    assert Replace([], pat, rep) == [];
  }

  lemma NoBraceText(s: string)
    requires '{' !in s
    ensures !Contains(s, "{url}") && !Contains(s, "{path}") && !Contains(s, "{filename}")
  {
    NoBraceNoPlaceholder(s, "{url}");
    NoBraceNoPlaceholder(s, "{path}");
    NoBraceNoPlaceholder(s, "{filename}");
  }

  lemma NoBraceNoPlaceholder(s: string, p: string)
    requires '{' !in s && p != [] && p[0] == '{'
    ensures !Contains(s, p)
  {
    forall i: nat | i <= |s| ensures !OccursAt(s, p, i) {
      if i + |p| <= |s| {
        assert s[i..i + |p|][0] == s[i];
      }
    }
  }

  /** The text of the shipped default prompt before its "{path}" placeholder. */
  const PROMPT_HEAD: string := "Bu resimde ne goruyorsun, kisaca tanimla? "

  lemma PromptHeadBraceFree()
    ensures '{' !in PROMPT_HEAD
    ensures SHIPPED_DEFAULTS.prompt == PROMPT_HEAD + "{path}"
  {
  }

  /** Any '{'-free head followed by "{path}" is sent as the head and the file path. */
  lemma HeadPathPrompt(head: string, urlPath: string, filePath: string)
    requires '{' !in head && '{' !in filePath
    ensures Prompt(head + "{path}", urlPath, filePath) == head + filePath
  {
    var p := Replace(head + "{path}", "{url}", urlPath);
    assert p == head + "{path}" by {
      ReplaceBraceFree(head, "{path}", "{url}", urlPath);
      assert !Contains("{path}", "{url}") by {
        assert !OccursAt("{path}", "{url}", 0) && !OccursAt("{path}", "{url}", 1);
      }
      ReplaceAbsent("{path}", "{url}", urlPath);
    }
    var p2 := Replace(p, "{path}", filePath);
    assert p2 == head + filePath by {
      ReplaceBraceFree(head, "{path}", "{path}", filePath);
      ReplaceWhole("{path}", filePath);
    }
    assert '{' !in head + filePath;
    NoBraceText(head + filePath);
    ReplaceAbsent(p2, "{filename}", BaseName(filePath));
  }

  /**
   * The shipped default prompt ends in "{path}", so it is sent as its text
   * followed by the image's file path.
   */
  lemma DefaultPromptText(urlPath: string, filePath: string)
    requires '{' !in filePath
    ensures Prompt(SHIPPED_DEFAULTS.prompt, urlPath, filePath) == PROMPT_HEAD + filePath
  {
    PromptHeadBraceFree();
    HeadPathPrompt(PROMPT_HEAD, urlPath, filePath);
  }

  /**
   * The order matters: "{url}" is replaced first, so placeholders inside the
   * URL path are replaced in turn (a URL path of "{path}" ends up as the
   * file path).
   */
  lemma UrlReplacedFirst(filePath: string)
    requires '{' !in filePath
    ensures Prompt("{url}", "{path}", filePath) == filePath
  {
    ReplaceWhole("{url}", "{path}");
    ReplaceWhole("{path}", filePath);
    NoBraceText(filePath);
    ReplaceAbsent(filePath, "{filename}", BaseName(filePath));
  }

  /** The file name of `<dir>/<name>` is `name`. */
  lemma BaseNameOf(dir: string, name: string)
    requires '/' !in name
    ensures BaseName(dir + "/" + name) == name
  {
    JoinSplitOn(dir, '/');
    SplitOnAppend(dir, name);
  }

  lemma {:induction false} SplitOnAppend(dir: string, name: string)
    requires '/' !in name
    ensures var parts := SplitOn(dir + "/" + name, '/');
      |parts| >= 2 && parts[|parts| - 1] == name
    decreases |dir|
  {
    var s := dir + "/" + name;
    if dir == [] {
      assert s == ['/'] + name;
      assert s[1..] == name;
      SplitOnNoSep(name);
    } else {
      assert s[1..] == dir[1..] + "/" + name;
      SplitOnAppend(dir[1..], name);
    }
  }

  lemma {:induction false} SplitOnNoSep(w: string)
    requires '/' !in w
    ensures SplitOn(w, '/') == [w]
    decreases |w|
  {
    if w != [] {
      SplitOnNoSep(w[1..]);
      assert w == [w[0]] + w[1..];
    }
  }

  /**
   * "response" is preferred to "output" and "output" to "text": the first
   * truthy field is the one read, and "text" is read when neither of the
   * others is truthy.
   */
  lemma ReplyTextPriority(response: JsonField, output: JsonField, text: JsonField)
    ensures FieldTruthy(response) ==> ReplyText(response, output, text) == FieldText(response)
    ensures !FieldTruthy(response) && FieldTruthy(output) ==> ReplyText(response, output, text) == FieldText(output)
    ensures !FieldTruthy(response) && !FieldTruthy(output) ==> ReplyText(response, output, text) == FieldText(text)
  {
  }

  /** The falsy parts of a list are skipped and the others joined with single spaces. */
  lemma {:induction false} TruthyTextsSpec(items: seq<JsonScalar>)
    ensures |TruthyTexts(items)| <= |items|
    ensures (forall k | 0 <= k < |items| :: !ScalarTruthy(items[k])) ==> TruthyTexts(items) == []
    ensures (forall k | 0 <= k < |items| :: items[k].JText? && items[k].s != []) ==>
      TruthyTexts(items) == seq(|items|, k requires 0 <= k < |items| => ScalarText(items[k]))
    decreases |items|
  {
    if items != [] {
      TruthyTextsSpec(items[1..]);
      if forall k | 0 <= k < |items| :: items[k].JText? && items[k].s != [] {
        assert forall k | 0 <= k < |items[1..]| :: items[1..][k].JText? && items[1..][k].s != [] by {
          forall k | 0 <= k < |items[1..]| ensures items[1..][k].JText? && items[1..][k].s != [] {
            assert items[1..][k] == items[k + 1];
          }
        }
      }
      if forall k | 0 <= k < |items| :: !ScalarTruthy(items[k]) {
        assert forall k | 0 <= k < |items[1..]| :: !ScalarTruthy(items[1..][k]) by {
          forall k | 0 <= k < |items[1..]| ensures !ScalarTruthy(items[1..][k]) {
            assert items[1..][k] == items[k + 1];
          }
        }
      }
    }
  }

  /**
   * A text read is stripped; a list whose parts are all falsy gives `None`
   * like a falsy scalar; a truthy text scalar gives its stripped text.
   */
  lemma FieldTextSpec(f: JsonField)
    ensures FieldText(f).Some? ==> Strip(FieldText(f).value) == FieldText(f).value
    ensures f.Scalar? && !ScalarTruthy(f.v) ==> FieldText(f) == None
    ensures f.List? && (forall k | 0 <= k < |f.items| :: !ScalarTruthy(f.items[k])) ==> FieldText(f) == None
    ensures f.Scalar? && f.v.JText? && f.v.s != [] ==> FieldText(f) == Some(Strip(f.v.s))
  {
    if f.List? {
      var t := Join(TruthyTexts(f.items), " ");
      assert FieldText(f) == if t != [] then Some(Strip(t)) else None;
      TruthyTextsSpec(f.items);
      if t != [] {
        StripIdempotent(t);
      }
    } else {
      assert FieldText(f) == if ScalarTruthy(f.v) then Some(Strip(ScalarText(f.v))) else None;
      if ScalarTruthy(f.v) {
        StripIdempotent(ScalarText(f.v));
      }
    }
  }

  /** A list of non-empty text parts gives them joined with spaces, then stripped. */
  lemma FieldTextOfWords(items: seq<JsonScalar>)
    requires forall k | 0 <= k < |items| :: items[k].JText? && items[k].s != []
    ensures var t := Join(seq(|items|, k requires 0 <= k < |items| => ScalarText(items[k])), " ");
      FieldText(List(items)) == if t != [] then Some(Strip(t)) else None
  {
    TruthyTextsSpec(items);
  }

  /**
   * A reply whose chosen text is only whitespace gives the empty string,
   * not `None`: the truthiness test comes before the strip.
   */
  lemma BlankReplyIsEmpty(blank: string)
    requires blank != [] && (forall k | 0 <= k < |blank| :: IsPySpace(blank[k]))
    ensures ReplyText(Scalar(JText(blank)), Scalar(JNull), Scalar(JNull)) == Some("")
  {
    BlankStrip(blank);
  }

  lemma {:induction false} BlankStrip(blank: string)
    requires forall k | 0 <= k < |blank| :: IsPySpace(blank[k])
    ensures RStrip(blank) == [] && Strip(blank) == []
    decreases |blank|
  {
    if blank != [] {
      var b := blank[..|blank| - 1];
      assert forall k | 0 <= k < |b| :: IsPySpace(b[k]) by {
        forall k | 0 <= k < |b| ensures IsPySpace(b[k]) {
          assert b[k] == blank[k];
        }
      }
      BlankStrip(b);
    }
  }
}
