/**
 * What the backend client promises: `joinUrl` puts exactly one '/' at the
 * junction; each JSON scanner reads back the value a field was written with
 * and falls back to its default when the field is missing or malformed; a
 * config body only changes the fields it carries, always leaves quality and
 * upload interval in range, keeps the controller's invariant and survives a
 * reboot; and a capture hands every frame buffer back exactly once.
 */
module BackendLemmas {
  import opened EspCamera
  import opened AppContext
  import opened FrameSizes
  import opened Strings
  import opened Wrappers
  import opened CameraSpec
  import opened CameraLemmas
  import opened CameraLifecycle
  import opened ConfigStorage
  import opened ConfigLemmas
  import opened BackendClient

  // ---------------------------------------------------------------------------
  // joinUrl

  function DropTrailingSlash(s: string): string {
    if EndsWith(s, "/") then s[..|s| - 1] else s
  }

  function DropLeadingSlash(s: string): string {
    if StartsWith(s, "/") then s[1..] else s
  }

  /**
   * An empty base gives the path and an empty path the base; otherwise the
   * result is the base without its trailing '/', one '/', and the path
   * without its leading '/'.
   */
  lemma JoinUrlSpec(base: string, path: string)
    ensures base == [] ==> JoinUrl(base, path) == path
    ensures base != [] && path == [] ==> JoinUrl(base, path) == base
    ensures base != [] && path != [] ==>
      JoinUrl(base, path) == DropTrailingSlash(base) + "/" + DropLeadingSlash(path)
  {
    if base != [] && path != [] {
      if EndsWith(base, "/") {
        assert base == base[..|base| - 1] + "/";
      }
      if path[0] == '/' {
        assert StartsWith(path, "/");
        assert path == "/" + path[1..];
      } else {
        assert !StartsWith(path, "/");
      }
    }
  }

  /** The config request goes to the base's "/api/config" with the device id and revision as query. */
  lemma ConfigUrlShape(base: string, deviceId: string, revision: U32)
    requires base != []
    ensures ConfigUrl(base, deviceId, revision) ==
      DropTrailingSlash(base) + "/api/config?deviceId=" + deviceId + "&rev=" + NatToString(revision)
  {
    JoinUrlSpec(base, CONFIG_PATH);
    assert StartsWith(CONFIG_PATH, "/");
    assert DropLeadingSlash(CONFIG_PATH) == "api/config";
  }

  // ---------------------------------------------------------------------------
  // Scanner helpers

  predicate NoQuote(s: string) {
    forall i | 0 <= i < |s| :: s[i] != '"'
  }

  predicate NoColon(s: string) {
    forall i | 0 <= i < |s| :: s[i] != ':'
  }

  predicate AllBlank(s: string) {
    forall i | 0 <= i < |s| :: IsBlank(s[i])
  }

  /** No occurrence of the quoted key starts inside `pre`: the key's first occurrence is right after it. */
  predicate KeyFirstAfter(body: string, pre: string, key: string) {
    forall j: nat | j < |pre| :: !OccursAt(body, Needle(key), j)
  }

  /** Skipping stops at the first non-blank at or after `j`, and only there. */
  lemma {:induction false} SkipBlanksAt(s: string, j: nat, k: nat)
    requires j <= k <= |s|
    requires forall i | j <= i < k :: IsBlank(s[i])
    requires k == |s| || !IsBlank(s[k])
    ensures SkipBlanks(s, j) == k
    decreases k - j
  {
    if j < k {
      SkipBlanksAt(s, j + 1, k);
    }
  }

  /** The number scan stops at the first character that is neither a digit nor '-', and only there. */
  lemma {:induction false} ScanNumberAt(s: string, j: nat, k: nat)
    requires j <= k <= |s|
    requires forall i | j <= i < k :: IsNumberChar(s[i])
    requires k == |s| || !IsNumberChar(s[k])
    ensures ScanNumber(s, j) == k
    decreases k - j
  {
    if j < k {
      ScanNumberAt(s, j + 1, k);
    }
  }

  /** The quoted key is found whenever a value position is. */
  lemma KeyColonFound(body: string, key: string)
    ensures KeyColon(body, key).Some? ==> Contains(body, Needle(key))
  {
    var i := IndexOf(body, Needle(key), 0);
    if i >= 0 {
      assert OccursAt(body, Needle(key), i);
    }
  }

  /** A body without the quoted key yields every scanner's default. */
  lemma KeyAbsent(body: string, key: string, defv: int, defVal: bool)
    requires !Contains(body, Needle(key))
    ensures KeyColon(body, key) == None
    ensures JsonGetString(body, key) == ""
    ensures JsonInt(body, key, defv) == defv
    ensures JsonBool(body, key, defVal) == defVal
  {
    KeyColonFound(body, key);
  }

  /** A body with no '"' at all carries no field. */
  lemma NoQuoteNoFields(body: string)
    requires NoQuote(body)
    ensures forall key :: KeyColon(body, key) == None
  {
    forall key
      ensures KeyColon(body, key) == None
    {
      var n := Needle(key);
      forall i: nat | i + |n| <= |body|
        ensures !OccursAt(body, n, i)
      {
        assert body[i..i + |n|][0] != n[0];
      }
    }
  }

  /** The value position of a field written as `"key"` sep `:` rest. */
  lemma KeyColonAt(body: string, pre: string, key: string, sep: string, rest: string)
    requires body == pre + Needle(key) + sep + ":" + rest
    requires KeyFirstAfter(body, pre, key) && NoColon(sep)
    ensures KeyColon(body, key) == Some(|pre| + |Needle(key)| + |sep|)
  {
    var n := Needle(key);
    assert body[|pre|..|pre| + |n|] == n;
    IndexOfIs(body, n, 0, |pre|);
    var k := |pre| + |n| + |sep|;
    forall j | |pre| + |n| <= j < k
      ensures body[j] != ':'
    {
      assert body[j] == sep[j - |pre| - |n|];
    }
    IndexOfCharIs(body, ':', |pre| + |n|, k);
  }

  // ---------------------------------------------------------------------------
  // jsonGetString

  /**
   * `jsonGetString` never returns text containing '"'; a non-empty result
   * comes from a body holding the quoted key and the result in quotes.
   */
  lemma JsonGetStringSpec(body: string, key: string)
    ensures NoQuote(JsonGetString(body, key))
    ensures JsonGetString(body, key) != [] ==>
      Contains(body, Needle(key)) && Contains(body, "\"" + JsonGetString(body, key) + "\"")
  {
    KeyColonFound(body, key);
    var c := KeyColon(body, key);
    if c.Some? {
      StringAtColon(body, key, c.value);
      QuotedFromSpec(body, c.value + 1);
    }
  }

  /** The quoted text holds no '"' and, when not empty, sits in the body between two quotes. */
  lemma QuotedFromSpec(body: string, from: nat)
    ensures NoQuote(QuotedFrom(body, from))
    ensures QuotedFrom(body, from) != [] ==> Contains(body, "\"" + QuotedFrom(body, from) + "\"")
  {
    var q1 := IndexOfChar(body, '"', from);
    if q1 >= 0 {
      var q2 := IndexOfChar(body, '"', q1 + 1);
      IndexOfCharFirst(body, '"', q1 + 1);
      if q2 >= 0 {
        var r := body[q1 + 1..q2];
        assert body[q1..q2 + 1] == "\"" + r + "\"";
        assert OccursAt(body, "\"" + r + "\"", q1);
      }
    }
  }

  /** From `from`, text `blanks rest` with rest not starting with a blank: skipping stops at rest. */
  lemma BlanksFrom(s: string, from: nat, blanks: string, rest: string)
    requires from <= |s| && s[from..] == blanks + rest
    requires AllBlank(blanks) && (rest == [] || !IsBlank(rest[0]))
    ensures SkipBlanks(s, from) == from + |blanks|
  {
    var o := from + |blanks|;
    var r := s[from..];
    forall i | from <= i < o
      ensures IsBlank(s[i])
    {
      assert s[i] == r[i - from] == blanks[i - from];
    }
    if rest != [] {
      assert s[o] == r[|blanks|] == rest[0];
    }
    SkipBlanksAt(s, from, o);
  }

  /** From `from`, text `gap "` post with no '"' in gap: the quote found is the one after gap. */
  lemma FirstQuote(s: string, from: nat, gap: string, post: string)
    requires from <= |s| && s[from..] == gap + "\"" + post
    requires NoQuote(gap)
    ensures IndexOfChar(s, '"', from) == from + |gap|
  {
    var q := from + |gap|;
    assert q < |s| && s[q] == '"' && forall j | from <= j < q :: s[j] != '"' by {
      var r := s[from..];
      assert s[q] == r[|gap|] == (gap + "\"")[|gap|];
      forall j | from <= j < q
        ensures s[j] != '"'
      {
        assert s[j] == r[j - from] == (gap + "\"")[j - from] == gap[j - from];
      }
    }
    IndexOfCharIs(s, '"', from, q);
  }

  /** `jsonGetString` on a body whose text after the colon is `gap "v" post`. */
  lemma StringAfterColon(body: string, key: string, k: nat, gap: string, v: string, post: string)
    requires KeyColon(body, key) == Some(k)
    requires body[k + 1..] == gap + "\"" + (v + "\"" + post)
    requires NoQuote(gap) && NoQuote(v)
    ensures JsonGetString(body, key) == v
  {
    StringAtColon(body, key, k);
    QuotedParts(body, k + 1, gap, v, post);
  }

  lemma QuotedParts(body: string, from: nat, gap: string, v: string, post: string)
    requires from <= |body| && body[from..] == gap + "\"" + (v + "\"" + post)
    requires NoQuote(gap) && NoQuote(v)
    ensures QuotedFrom(body, from) == v
  {
    var q1 := from + |gap|;
    FirstQuote(body, from, gap, v + "\"" + post);
    assert body[q1 + 1..] == v + "\"" + post by {
      assert body[from..][|gap| + 1..] == v + "\"" + post;
    }
    FirstQuote(body, q1 + 1, v, post);
    assert body[q1 + 1..q1 + 1 + |v|] == v by {
      assert body[q1 + 1..][..|v|] == v;
    }
    QuotedRead(body, from, q1, q1 + 1 + |v|);
  }

  /** `jsonGetString` once the colon and both quotes are found. */
  lemma StringRead(body: string, key: string, k: nat, q1: nat, q2: nat)
    requires KeyColon(body, key) == Some(k)
    requires IndexOfChar(body, '"', k + 1) == q1 && IndexOfChar(body, '"', q1 + 1) == q2
    ensures JsonGetString(body, key) == body[q1 + 1..q2]
  {
    StringAtColon(body, key, k);
    QuotedRead(body, k + 1, q1, q2);
  }

  lemma QuotedRead(body: string, from: nat, q1: nat, q2: nat)
    requires IndexOfChar(body, '"', from) == q1 && IndexOfChar(body, '"', q1 + 1) == q2
    ensures QuotedFrom(body, from) == body[q1 + 1..q2]
  {
  }

  /** A string field written as `"key"` sep `:` gap `"v"` reads back as `v`. */
  lemma JsonStringOfField(body: string, pre: string, key: string, sep: string, gap: string, v: string, post: string)
    requires body == pre + Needle(key) + sep + ":" + gap + "\"" + v + "\"" + post
    requires KeyFirstAfter(body, pre, key) && NoColon(sep) && NoQuote(gap) && NoQuote(v)
    ensures JsonGetString(body, key) == v
  {
    var rest := gap + "\"" + (v + "\"" + post);
    assert body == pre + Needle(key) + sep + ":" + rest;
    KeyColonAt(body, pre, key, sep, rest);
    var k := |pre| + |Needle(key)| + |sep|;
    assert body[k + 1..] == rest;
    StringAfterColon(body, key, k, gap, v, post);
  }

  // ---------------------------------------------------------------------------
  // jsonGetInt

  lemma DigitPrefixAll(s: string)
    requires AllDigits(s)
    ensures DigitPrefix(s) == s
  {
  }

  /** `toInt` reads back the decimal text of any integer. */
  lemma AtoLIntToString(n: int)
    ensures AtoL(IntToString(n)) == n
  {
    IntToStringShape(n);
    var m: nat := if n < 0 then -n else n;
    DigitsValueOfNatToString(m);
    DigitPrefixAll(NatToString(m));
    var t := IntToString(n);
    assert DropCSpace(t) == t;
    if n < 0 {
      assert t[1..] == NatToString(m);
    }
  }

  /** From `from`, number characters t and then a non-number: the scan takes exactly t. */
  lemma NumberFrom(s: string, from: nat, t: string, post: string)
    requires from <= |s| && s[from..] == t + post
    requires forall i | 0 <= i < |t| :: IsNumberChar(t[i])
    requires post == [] || !IsNumberChar(post[0])
    ensures ScanNumber(s, from) == from + |t|
    ensures s[from..from + |t|] == t
  {
    var r := s[from..];
    forall i | from <= i < from + |t|
      ensures IsNumberChar(s[i])
    {
      assert s[i] == r[i - from] == t[i - from];
    }
    if post != [] {
      assert s[from + |t|] == r[|t|] == post[0];
    }
    ScanNumberAt(s, from, from + |t|);
    assert s[from..from + |t|] == r[..|t|];
  }

  /** `jsonGetInt` once the colon, the blanks and the number run are found. */
  lemma IntRead(body: string, key: string, defv: int, k: nat, j: nat, e: nat)
    requires KeyColon(body, key) == Some(k)
    requires k + 1 <= |body| && SkipBlanks(body, k + 1) == j && j <= |body| && ScanNumber(body, j) == e
    ensures j == e ==> JsonInt(body, key, defv) == defv
    ensures j < e ==> JsonInt(body, key, defv) == ToInt(body[j..e])
  {
    IntAtColon(body, key, k, defv);
    IntFromRead(body, k + 1, defv, j, e);
  }

  lemma IntFromRead(body: string, from: nat, defv: int, j: nat, e: nat)
    requires from <= |body| && SkipBlanks(body, from) == j && j <= |body| && ScanNumber(body, j) == e
    ensures j == e ==> IntFrom(body, from, defv) == defv
    ensures j < e ==> IntFrom(body, from, defv) == ToInt(body[j..e])
  {
  }

  /** `jsonGetInt` on a body whose text after the colon is blanks, number characters t, then post. */
  lemma IntAfterColon(body: string, key: string, defv: int, k: nat, blanks: string, t: string, post: string)
    requires KeyColon(body, key) == Some(k)
    requires body[k + 1..] == blanks + (t + post)
    requires AllBlank(blanks) && forall i | 0 <= i < |t| :: IsNumberChar(t[i])
    requires t != [] ==> !IsBlank(t[0])
    requires t == [] && post != [] ==> !IsBlank(post[0])
    requires post == [] || !IsNumberChar(post[0])
    ensures t == [] ==> JsonInt(body, key, defv) == defv
    ensures t != [] ==> JsonInt(body, key, defv) == ToInt(t)
  {
    IntAtColon(body, key, k, defv);
    NumberParts(body, k + 1, defv, blanks, t, post);
  }

  lemma NumberParts(body: string, from: nat, defv: int, blanks: string, t: string, post: string)
    requires from <= |body| && body[from..] == blanks + (t + post)
    requires AllBlank(blanks) && forall i | 0 <= i < |t| :: IsNumberChar(t[i])
    requires t != [] ==> !IsBlank(t[0])
    requires t == [] && post != [] ==> !IsBlank(post[0])
    requires post == [] || !IsNumberChar(post[0])
    ensures t == [] ==> IntFrom(body, from, defv) == defv
    ensures t != [] ==> IntFrom(body, from, defv) == ToInt(t)
  {
    var j := from + |blanks|;
    BlanksFrom(body, from, blanks, t + post);
    assert body[j..] == t + post by {
      assert body[from..][|blanks|..] == t + post;
    }
    NumberFrom(body, j, t, post);
    IntFromRead(body, from, defv, j, j + |t|);
  }

  /** An integer field written as `"key"` sep `:` blanks, its decimal text, then a non-number character. */
  lemma JsonIntOfField(body: string, pre: string, key: string, sep: string, blanks: string, n: int,
                       post: string, defv: int)
    requires body == pre + Needle(key) + sep + ":" + blanks + IntToString(n) + post
    requires KeyFirstAfter(body, pre, key) && NoColon(sep) && AllBlank(blanks)
    requires post == [] || !IsNumberChar(post[0])
    requires LONG_MIN <= n <= LONG_MAX
    ensures JsonInt(body, key, defv) == n
  {
    var t := IntToString(n);
    IntToStringShape(n);
    var rest := blanks + (t + post);
    assert body == pre + Needle(key) + sep + ":" + rest;
    KeyColonAt(body, pre, key, sep, rest);
    var k := |pre| + |Needle(key)| + |sep|;
    assert body[k + 1..] == rest;
    assert forall i | 0 <= i < |t| :: IsNumberChar(t[i]);
    IntAfterColon(body, key, defv, k, blanks, t, post);
    AtoLIntToString(n);
  }

  /**
   * A field whose value does not start with a digit or '-' (`null`, a quoted
   * number, `true`) gives the default.
   */
  lemma JsonIntNotNumber(body: string, pre: string, key: string, sep: string, blanks: string,
                         rest: string, defv: int)
    requires body == pre + Needle(key) + sep + ":" + blanks + rest
    requires KeyFirstAfter(body, pre, key) && NoColon(sep) && AllBlank(blanks)
    requires rest == [] || (!IsBlank(rest[0]) && !IsNumberChar(rest[0]))
    ensures JsonInt(body, key, defv) == defv
  {
    var tail := blanks + ([] + rest);
    assert body == pre + Needle(key) + sep + ":" + tail;
    KeyColonAt(body, pre, key, sep, tail);
    var k := |pre| + |Needle(key)| + |sep|;
    assert body[k + 1..] == tail;
    IntAfterColon(body, key, defv, k, blanks, [], rest);
  }

  /** `jsonGetInt` gives a 32-bit value, and anything but the default only for a body with the key. */
  lemma JsonIntSpec(body: string, key: string, defv: int)
    ensures JsonInt(body, key, defv) != defv ==>
      Contains(body, Needle(key)) && LONG_MIN <= JsonInt(body, key, defv) <= LONG_MAX
  {
    KeyColonFound(body, key);
  }

  // ---------------------------------------------------------------------------
  // jsonGetBool

  /** From `from`, a literal is seen exactly when the text from there starts with it. */
  lemma LiteralFrom(s: string, from: nat, rest: string, lit: string)
    requires from <= |s| && s[from..] == rest
    ensures StartsWithAt(s, lit, from) <==> StartsWith(rest, lit)
  {
    if from + |lit| <= |s| {
      assert s[from..from + |lit|] == rest[..|lit|];
    }
  }

  /** `jsonGetBool` once the colon and the blanks after it are found. */
  lemma BoolRead(body: string, key: string, defVal: bool, k: nat, j: nat)
    requires KeyColon(body, key) == Some(k)
    requires k + 1 <= |body| && SkipBlanks(body, k + 1) == j
    ensures StartsWithAt(body, "true", j) ==> JsonBool(body, key, defVal)
    ensures !StartsWithAt(body, "true", j) && StartsWithAt(body, "false", j) ==> !JsonBool(body, key, defVal)
    ensures !StartsWithAt(body, "true", j) && !StartsWithAt(body, "false", j) ==>
      JsonBool(body, key, defVal) == defVal
  {
    BoolAtColon(body, key, k, defVal);
  }

  /** `jsonGetBool` on a body whose text after the colon is blanks, then rest. */
  lemma BoolAfterColon(body: string, key: string, defVal: bool, k: nat, blanks: string, rest: string)
    requires KeyColon(body, key) == Some(k)
    requires body[k + 1..] == blanks + rest
    requires AllBlank(blanks) && (rest == [] || !IsBlank(rest[0]))
    ensures StartsWith(rest, "true") ==> JsonBool(body, key, defVal)
    ensures StartsWith(rest, "false") ==> !JsonBool(body, key, defVal)
    ensures !StartsWith(rest, "true") && !StartsWith(rest, "false") ==> JsonBool(body, key, defVal) == defVal
  {
    BoolAtColon(body, key, k, defVal);
    LiteralParts(body, k + 1, defVal, blanks, rest);
  }

  lemma LiteralParts(body: string, from: nat, defVal: bool, blanks: string, rest: string)
    requires from <= |body| && body[from..] == blanks + rest
    requires AllBlank(blanks) && (rest == [] || !IsBlank(rest[0]))
    ensures StartsWith(rest, "true") ==> BoolFrom(body, from, defVal)
    ensures StartsWith(rest, "false") ==> !BoolFrom(body, from, defVal)
    ensures !StartsWith(rest, "true") && !StartsWith(rest, "false") ==> BoolFrom(body, from, defVal) == defVal
  {
    var j := from + |blanks|;
    BlanksFrom(body, from, blanks, rest);
    assert body[j..] == rest by {
      assert body[from..][|blanks|..] == rest;
    }
    LiteralFrom(body, j, rest, "true");
    LiteralFrom(body, j, rest, "false");
    if StartsWith(rest, "false") {
      assert rest[0] == 'f';
    }
  }

  /** A boolean field written as `"key"` sep `:` blanks, then `true` or `false`. */
  lemma JsonBoolOfField(body: string, pre: string, key: string, sep: string, blanks: string, b: bool,
                        post: string, defVal: bool)
    requires body == pre + Needle(key) + sep + ":" + blanks + (if b then "true" else "false") + post
    requires KeyFirstAfter(body, pre, key) && NoColon(sep) && AllBlank(blanks)
    ensures JsonBool(body, key, defVal) == b
  {
    var lit := if b then "true" else "false";
    var rest := lit + post;
    var tail := blanks + rest;
    assert body == pre + Needle(key) + sep + ":" + tail;
    KeyColonAt(body, pre, key, sep, tail);
    var k := |pre| + |Needle(key)| + |sep|;
    assert body[k + 1..] == tail;
    assert rest[..|lit|] == lit;
    BoolAfterColon(body, key, defVal, k, blanks, rest);
  }

  /** A value that is neither literal (`1`, `"yes"`, `null`) gives the default. */
  lemma JsonBoolNotLiteral(body: string, pre: string, key: string, sep: string, blanks: string,
                           rest: string, defVal: bool)
    requires body == pre + Needle(key) + sep + ":" + blanks + rest
    requires KeyFirstAfter(body, pre, key) && NoColon(sep) && AllBlank(blanks)
    requires rest == [] || !IsBlank(rest[0])
    requires !StartsWith(rest, "true") && !StartsWith(rest, "false")
    ensures JsonBool(body, key, defVal) == defVal
  {
    var tail := blanks + rest;
    assert body == pre + Needle(key) + sep + ":" + tail;
    KeyColonAt(body, pre, key, sep, tail);
    var k := |pre| + |Needle(key)| + |sep|;
    assert body[k + 1..] == tail;
    BoolAfterColon(body, key, defVal, k, blanks, rest);
  }

  /** `jsonGetBool` departs from the default only on a body with the key and the literal it returns. */
  lemma JsonBoolSpec(body: string, key: string, defVal: bool)
    ensures JsonBool(body, key, defVal) != defVal ==>
      Contains(body, Needle(key)) && Contains(body, if JsonBool(body, key, defVal) then "true" else "false")
  {
    KeyColonFound(body, key);
    var c := KeyColon(body, key);
    if c.Some? {
      var j := SkipBlanks(body, c.value + 1);
      if StartsWithAt(body, "true", j) {
        assert OccursAt(body, "true", j);
      } else if StartsWithAt(body, "false", j) {
        assert OccursAt(body, "false", j);
      }
    }
  }

  // ---------------------------------------------------------------------------
  // Applying a config body

  /** Reconciliation never touches a target, the upload or backend settings, or the store. */
  lemma ApplyConfigKeepsTargets(c: Ctx)
    ensures
      var r := ApplyConfig(c);
      && r.camera.target == c.camera.target
      && r.camera.frameSizeTarget == c.camera.frameSizeTarget
      && r.camera.frameSizeKeyTarget == c.camera.frameSizeKeyTarget
      && r.camera.jpegQualityTarget == c.camera.jpegQualityTarget
      && r.lowLight.boostEnabled == c.lowLight.boostEnabled
      && r.(hw := c.hw, camera := c.camera, lowLight := c.lowLight) == c
  {
    if c.camera.inited {
      if c.camera.frameSizeTarget != c.camera.frameSize {
        var c1 := c.(hw := Sleep(CameraDeinit(c.hw), RECONFIG_DELAY_MS),
                     camera := c.camera.(inited := false,
                                         frameSize := c.camera.frameSizeTarget,
                                         frameSizeKey := c.camera.frameSizeKeyTarget,
                                         jpegQuality := c.camera.jpegQualityTarget));
        InitCameraLadder(c1);
        var (c2, ok) := InitCamera(c1);
        if ok {
          TuningPassSpec(c2);
        }
      } else {
        var q := c.camera.jpegQualityTarget;
        var c1 := if q != c.camera.jpegQuality && c.hw.up
                  then c.(hw := c.hw.(regs := c.hw.regs.(quality := q)), camera := c.camera.(jpegQuality := q))
                  else c;
        if c1.hw.up {
          TuningPassSpec(c1);
        }
      }
    }
  }

  /**
   * The body's own writes: the upload fields, the targets, and the boost
   * switch; a flipped switch resets the low-light state, an unchanged one
   * leaves it alone. Network, backend, store and HTTP state are untouched.
   */
  lemma BodyAppliedFields(c: Ctx, body: string)
    ensures
      var r := BodyApplied(c, body);
      var (cam, up) := UploadFields(c.camera, c.upload, c.backend.baseUrl, body);
      var b := JsonBool(body, "lowLightBoost", c.lowLight.boostEnabled);
      && r.upload == up
      && r.network == c.network && r.backend == c.backend && r.prefs == c.prefs && r.http == c.http
      && r.camera.frameSizeTarget == cam.frameSizeTarget
      && r.camera.frameSizeKeyTarget == cam.frameSizeKeyTarget
      && r.camera.jpegQualityTarget == cam.jpegQualityTarget
      && r.camera.target == TargetFromBody(c.camera.target, body)
      && r.lowLight.boostEnabled == b
      && (b == c.lowLight.boostEnabled ==> r.lowLight == c.lowLight)
      && (b != c.lowLight.boostEnabled ==> r.lowLight.score == 0 && !r.lowLight.active)
  {
    var u := UploadApplied(c, body);
    var b := JsonBool(body, "lowLightBoost", c.lowLight.boostEnabled);
    if b != c.lowLight.boostEnabled {
      var u1 := u.(lowLight := u.lowLight.(boostEnabled := b));
      RefreshSpec(u1.(lowLight := u1.lowLight.(score := 0, active := false)));
    }
  }

  /** After a body, the quality target is in [5, 63] and the interval in [1, 3600], whatever was sent. */
  lemma ConfigAppliedClamps(c: Ctx, body: string)
    ensures 5 <= ConfigApplied(c, body).camera.jpegQualityTarget <= 63
    ensures 1 <= ConfigApplied(c, body).upload.intervalSec <= 3600
    ensures ConfigApplied(c, body).upload.apiUrl == [] ==> ConfigApplied(c, body).backend.baseUrl == []
  {
    ConfigAppliedKeeps(c, body);
    var a := BodyApplied(c, body);
    var (cam, up) := UploadFields(c.camera, c.upload, c.backend.baseUrl, body);
    assert a.upload == up && a.camera.jpegQualityTarget == cam.jpegQualityTarget && a.backend == c.backend by {
      BodyAppliedFields(c, body);
    }
    UploadFieldsClamps(c.camera, c.upload, c.backend.baseUrl, body);
  }

  lemma UploadFieldsClamps(cam: CameraState, up: UploadState, baseUrl: string, body: string)
    ensures
      var (cam', up') := UploadFields(cam, up, baseUrl, body);
      && 5 <= cam'.jpegQualityTarget <= 63
      && 1 <= up'.intervalSec <= 3600
      && (up'.apiUrl == [] ==> baseUrl == [])
  {
    DefaultUploadUrlShape(baseUrl);
  }

  /** What reconciliation, the revision and the save leave of the body's writes. */
  lemma ConfigAppliedKeeps(c: Ctx, body: string)
    ensures
      var a := BodyApplied(c, body);
      var r := ConfigApplied(c, body);
      && r.camera.target == a.camera.target
      && r.camera.frameSizeTarget == a.camera.frameSizeTarget
      && r.camera.frameSizeKeyTarget == a.camera.frameSizeKeyTarget
      && r.camera.jpegQualityTarget == a.camera.jpegQualityTarget
      && r.upload == a.upload
      && r.backend.baseUrl == a.backend.baseUrl
  {
    ApplyConfigKeepsTargets(BodyApplied(c, body));
  }

  /** The frame-size target changes only for a non-empty key, to the size it names and the key as sent. */
  lemma ConfigAppliedFrameSize(c: Ctx, body: string)
    ensures
      var r := ConfigApplied(c, body);
      var fs := JsonGetString(body, "framesize");
      && (fs == [] ==> r.camera.frameSizeTarget == c.camera.frameSizeTarget
                       && r.camera.frameSizeKeyTarget == c.camera.frameSizeKeyTarget)
      && (fs != [] ==> r.camera.frameSizeTarget == FramesizeFromKey(fs) && r.camera.frameSizeKeyTarget == fs)
  {
    ConfigAppliedKeeps(c, body);
    var a := BodyApplied(c, body);
    var (cam, up) := UploadFields(c.camera, c.upload, c.backend.baseUrl, body);
    assert a.camera.frameSizeTarget == cam.frameSizeTarget && a.camera.frameSizeKeyTarget == cam.frameSizeKeyTarget by {
      BodyAppliedFields(c, body);
    }
  }

  /** The gain ceiling index changes only for a value that is present and not negative. */
  lemma ConfigAppliedGainceiling(c: Ctx, body: string)
    ensures
      var r := ConfigApplied(c, body);
      var gc := JsonInt(body, "gainceiling", LONG_MIN);
      && (gc == LONG_MIN || gc < 0 ==> r.camera.target.gainceilingIndex == c.camera.target.gainceilingIndex)
      && (gc != LONG_MIN && 0 <= gc < 0x100 ==> r.camera.target.gainceilingIndex == gc)
  {
    ConfigAppliedKeeps(c, body);
    assert BodyApplied(c, body).camera.target == TargetFromBody(c.camera.target, body) by {
      BodyAppliedFields(c, body);
    }
    TargetGainceiling(c.camera.target, body);
  }

  lemma TargetGainceiling(t: SensorTuning, body: string)
    ensures
      var gc := JsonInt(body, "gainceiling", LONG_MIN);
      && (gc == LONG_MIN || gc < 0 ==> TargetFromBody(t, body).gainceilingIndex == t.gainceilingIndex)
      && (gc != LONG_MIN && 0 <= gc < 0x100 ==> TargetFromBody(t, body).gainceilingIndex == gc)
  {
  }

  /** The revision changes only when the body carries one, and is then stored as 32 unsigned bits. */
  lemma ConfigAppliedRevision(c: Ctx, body: string)
    ensures
      var r := ConfigApplied(c, body);
      var rev := JsonInt(body, "rev", LONG_MIN);
      && (rev == LONG_MIN ==> r.backend.revision == c.backend.revision)
      && (rev != LONG_MIN && rev >= 0 ==> r.backend.revision == rev)
      && (rev != LONG_MIN && rev < 0 ==> r.backend.revision == rev + 0x1_0000_0000)
  {
    var c1 := ApplyConfig(BodyApplied(c, body));
    assert c1.backend.revision == c.backend.revision by {
      BodyAppliedFields(c, body);
      ApplyConfigKeepsTargets(BodyApplied(c, body));
    }
    RevAppliedSpec(c1, body);
  }

  lemma RevAppliedSpec(c: Ctx, body: string)
    ensures
      var r := RevApplied(c, body);
      var rev := JsonInt(body, "rev", LONG_MIN);
      && (rev == LONG_MIN ==> r.backend.revision == c.backend.revision)
      && (rev != LONG_MIN && rev >= 0 ==> r.backend.revision == rev)
      && (rev != LONG_MIN && rev < 0 ==> r.backend.revision == rev + 0x1_0000_0000)
  {
    JsonIntSpec(body, "rev", LONG_MIN);
  }

  /** Applying a body keeps the controller's invariant. */
  lemma ConfigAppliedValid(c: Ctx, body: string)
    requires Valid(c)
    ensures Valid(ConfigApplied(c, body))
  {
    var a := BodyApplied(c, body);
    assert ValidUpToTuning(a) by {
      var u := UploadApplied(c, body);
      var b := JsonBool(body, "lowLightBoost", c.lowLight.boostEnabled);
      if b != c.lowLight.boostEnabled {
        var u1 := u.(lowLight := u.lowLight.(boostEnabled := b));
        RefreshSpec(u1.(lowLight := u1.lowLight.(score := 0, active := false)));
      }
    }
    ApplyConfigValid(a);
    var c1 := RevApplied(ApplyConfig(a), body);
    assert Valid(c1) by {
      ValidIgnoresRevision(ApplyConfig(a), body);
    }
    ValidIgnoresPrefs(c1, Saved(c1));
  }

  lemma ValidIgnoresRevision(c: Ctx, body: string)
    ensures Valid(RevApplied(c, body)) == Valid(c)
  {
  }

  lemma ValidIgnoresPrefs(c: Ctx, p: Prefs)
    ensures Valid(c.(prefs := p)) == Valid(c)
  {
  }

  /**
   * What a body leaves is what the next boot loads: the same configuration,
   * with the target snapshot under the load-time clamps, which the sensor
   * clamps make invisible.
   */
  lemma ConfigAppliedSurvivesReboot(c: Ctx, body: string)
    ensures
      var r := ConfigApplied(c, body);
      ConfigOf(Loaded(r)) == ConfigOf(r).(tuning := LoadClamp(r.camera.target))
    ensures
      var r := ConfigApplied(c, body);
      ClampTuning(Loaded(r).camera.target) == ClampTuning(r.camera.target)
  {
    var c1 := RevApplied(ApplyConfig(BodyApplied(c, body)), body);
    var r := ConfigApplied(c, body);
    assert r == c1.(prefs := Saved(c1));
    ConfigAppliedClamps(c, body);
    SavedSettings(c1);
    SavedTuning(c1);
    LoadedConfig(r);
    LoadedCamera(r);
    LoadClampAgrees(r.camera.target);
  }

  /**
   * `fetchConfigFromBackend` succeeds exactly when backend URL, token and WiFi
   * are there and the request returns a positive status; otherwise nothing
   * changes.
   */
  lemma FetchConfigSpec(c: Ctx, wifiUp: bool, resp: HttpResponse)
    ensures
      var (r, ok) := FetchConfig(c, wifiUp, resp);
      && ok == (c.backend.baseUrl != [] && c.backend.token != [] && wifiUp && resp.Response? && resp.code > 0)
      && (!ok ==> r == c)
      && (ok ==> r == ConfigApplied(c, resp.body))
  {
  }

  // ---------------------------------------------------------------------------
  // Upload

  /**
   * `uploadFrameToApi` succeeds exactly on a 2xx answer to a POST that could
   * be made; a missing URL, missing WiFi or an unstartable client is recorded
   * with status 0; only the HTTP state changes.
   */
  lemma UploadFrameSpec(c: Ctx, wifiUp: bool, post: PostResult)
    ensures
      var (r, ok) := UploadFrame(c, wifiUp, post);
      && ok == (c.upload.apiUrl != [] && wifiUp && post.Posted? && 200 <= post.code < 300)
      && r.(http := c.http) == c
      && (c.upload.apiUrl == [] || !wifiUp || post.PostBeginFailed? ==> r.http.lastStatus == 0)
      && (c.upload.apiUrl != [] && wifiUp && post.Posted? ==> r.http.lastStatus == post.code)
  {
  }

  /**
   * `captureAndUploadOnce` gives back every frame buffer it takes: when the
   * grab fails nothing is given back and the failure is recorded; when it
   * succeeds the low-light step runs and the buffer goes back exactly once,
   * after the upload. Either way the count of held buffers is unchanged.
   */
  lemma CaptureReleasesOnce(c: Ctx, now: U32, later: U32, wifiUp: bool, post: PostResult)
    ensures
      var (r, ok) := CaptureUpload(c, now, later, wifiUp, post);
      var (g, got) := SafeGrab(c, now);
      && r.hw.held == c.hw.held
      && (!c.camera.inited ==> r == c && !ok)
      && (c.camera.inited && !got ==> r.hw == g.hw && r.http == HttpState(0, "fb=null") && !ok)
      && (c.camera.inited && got ==>
            && r.hw.log == g.hw.log + [FrameReturn]
            && r.lowLight == Evaluate(g, later).lowLight
            && ok == UploadFrame(Evaluate(g, later), wifiUp, post).1)
  {
    if c.camera.inited {
      GrabHandsOut(c, now);
      var (g, got) := SafeGrab(c, now);
      if got {
        EvaluateKeepsHeld(g, later);
        assert Evaluate(g, later).hw.log == g.hw.log;
      }
    }
  }

  /** A capture keeps the controller's invariant. */
  lemma CaptureValid(c: Ctx, now: U32, later: U32, wifiUp: bool, post: PostResult)
    requires Valid(c)
    ensures Valid(CaptureUpload(c, now, later, wifiUp, post).0)
  {
    if c.camera.inited {
      SafeGrabValid(c, now);
      var (g, got) := SafeGrab(c, now);
      if got {
        EvaluateValid(g, later);
        var e := Evaluate(g, later);
        var u := UploadFrame(e, wifiUp, post).0;
        assert Valid(u) by {
          UploadFrameSpec(e, wifiUp, post);
          ValidIgnoresHttp(e, u.http);
        }
        HeldAfterGrab(c, now, later, wifiUp, post);
        ValidIgnoresFrameReturn(u);
        assert CaptureUpload(c, now, later, wifiUp, post).0 == u.(hw := FbReturn(u.hw));
      } else {
        ValidIgnoresHttp(g, HttpState(0, "fb=null"));
      }
    }
  }

  lemma ValidIgnoresHttp(c: Ctx, h: HttpState)
    ensures Valid(c.(http := h)) == Valid(c)
  {
  }

  lemma ValidIgnoresFrameReturn(c: Ctx)
    requires c.hw.held > 0
    ensures Valid(c.(hw := FbReturn(c.hw))) == Valid(c)
  {
  }
}
