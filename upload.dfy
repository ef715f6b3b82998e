/**
 * The upload route (`routes/upload.py`): who may upload, in which order the
 * handler rejects a request, the recent-image history it keeps per device,
 * and how the generate-endpoint path for image analysis is chosen.
 *
 * The database row for the device is a parameter (the lookup itself is not
 * modelled), as are the request's headers, the current time, and the
 * analysis text the Ollama call produced.
 */
module Upload {
  import opened Strings
  import opened Wrappers
  import opened PyValues
  import opened Auth
  import opened Storage

  // ---------------------------------------------------------------------------
  // Authorization (lines 96-108)

  /** `row["upload_token"] if row else None`. */
  function DeviceToken(row: Option<Row>): PyValue {
    if row.Some? then RowValue(row, "upload_token") else PyNone
  }

  /** The `ok` flag: the global upload token, or the device's own non-empty token. */
  predicate UploadAuthorized(tok: Option<string>, uploadToken: string, row: Option<Row>) {
    var ok := tok == Some(uploadToken);
    if ok then true
    else
      var devTok := DeviceToken(row);
      tok.Some? && Truthy(devTok) && PyStr(tok.value) == devTok
  }

  /**
   * An upload is authorized exactly when a token is present and equals the
   * global upload token or the device's non-empty upload token.
   */
  lemma UploadAuthorizedSpec(tok: Option<string>, uploadToken: string, row: Option<Row>)
    ensures UploadAuthorized(tok, uploadToken, row) <==>
      tok.Some? &&
      (tok.value == uploadToken ||
       (DeviceToken(row).PyStr? && DeviceToken(row).s != [] && tok.value == DeviceToken(row).s))
    ensures tok.None? ==> !UploadAuthorized(tok, uploadToken, row)
    ensures DeviceToken(row) == PyStr("") ==>
      (UploadAuthorized(tok, uploadToken, row) <==> tok == Some(uploadToken))
  {
  }

  /** A client that sends `Bearer <token>` with the device's own token gets in. */
  lemma DeviceTokenAdmits(token: string, uploadToken: string, row: Row)
    requires IsWord(token) && "upload_token" in row && row["upload_token"] == PyStr(token)
    ensures UploadAuthorized(GetBearer(Some("Bearer " + token)), uploadToken, Some(row))
  {
    RequireBearerAccepts(token);
    RequireBearerSpec(Some("Bearer " + token), token);
  }

  // ---------------------------------------------------------------------------
  // Recent-image history (`collect_last_images`, lines 155-167)

  /** `[u for u in parts if u]`. */
  function NonEmpty(parts: seq<string>): seq<string>
    decreases |parts|
  {
    if parts == [] then []
    else (if parts[0] != "" then [parts[0]] else []) + NonEmpty(parts[1..])
  }

  /** Python `s[:n]`, negative `n` counting from the end. */
  function Take<T>(s: seq<T>, n: int): (r: seq<T>)
    ensures n >= 0 ==> |r| == Min(n, |s|)
    ensures n < 0 ==> |r| == Max(0, |s| + n)
    ensures r == s[..|r|]
  {
    if n >= 0 then (if n <= |s| then s[..n] else s)
    else if |s| + n >= 0 then s[..|s| + n] else []
  }

  /** The stored history of a row: its newline-separated non-empty entries. */
  function StoredUrls(row: Option<Row>): seq<string> {
    var stored := RowValue(row, "last_img_urls");
    if row.Some? && Truthy(stored) then NonEmpty(SplitOn(Text(stored), '\n')) else []
  }

  /** The history `collect_last_images` returns, before it is joined. */
  function RecentImages(row: Option<Row>, newUrl: string, limit: int): seq<string> {
    Take([newUrl] + StoredUrls(row), limit)
  }

  lemma {:induction false} NonEmptyAppend(parts: seq<string>, x: string)
    ensures NonEmpty(parts + [x]) == NonEmpty(parts) + (if x != "" then [x] else [])
    decreases |parts|
  {
    if parts != [] {
      assert (parts + [x])[1..] == parts[1..] + [x];
      NonEmptyAppend(parts[1..], x);
    }
  }

  /**
   * `collect_last_images(device_id, new_url, limit, row)`: the stored
   * entries of the row, without empty ones, behind `new_url`, cut to `limit`
   * and joined with newlines. `row` is the row after the source's own lookup.
   */
  method CollectLastImages(row: Option<Row>, newUrl: string, limit: int) returns (joined: string)
    ensures joined == Join(RecentImages(row, newUrl, limit), "\n")
  {
    var existing: seq<string> := [];
    if row.Some? {
      var stored := RowValue(row, "last_img_urls");
      if Truthy(stored) {
        var parts := SplitOn(Text(stored), '\n');
        var i := 0;
        while i < |parts|
          invariant 0 <= i <= |parts|
          invariant existing == NonEmpty(parts[..i])
        {
          NonEmptyAppend(parts[..i], parts[i]);
          assert parts[..i + 1] == parts[..i] + [parts[i]];
          if parts[i] != "" {
            existing := existing + [parts[i]];
          }
          i := i + 1;
        }
        assert parts[..|parts|] == parts;
      }
    }
    existing := [newUrl] + existing;
    joined := Join(Take(existing, limit), "\n");
  }

  /** Filtering keeps exactly the non-empty entries, in their order. */
  lemma {:induction false} NonEmptySpec(parts: seq<string>)
    ensures forall k | 0 <= k < |NonEmpty(parts)| :: NonEmpty(parts)[k] != ""
    ensures forall x :: x in NonEmpty(parts) <==> x in parts && x != ""
    ensures (forall k | 0 <= k < |parts| :: parts[k] != "") ==> NonEmpty(parts) == parts
    ensures |NonEmpty(parts)| <= |parts|
    decreases |parts|
  {
    if parts != [] {
      NonEmptySpec(parts[1..]);
      assert parts == [parts[0]] + parts[1..];
      if forall k | 0 <= k < |parts| :: parts[k] != "" {
        assert forall k | 0 <= k < |parts[1..]| :: parts[1..][k] != "" by {
          forall k | 0 <= k < |parts[1..]| ensures parts[1..][k] != "" {
            assert parts[1..][k] == parts[k + 1];
          }
        }
      }
    }
  }

  /** Every stored entry is non-empty and holds no newline. */
  lemma StoredUrlsSpec(row: Option<Row>)
    ensures forall k | 0 <= k < |StoredUrls(row)| :: StoredUrls(row)[k] != "" && '\n' !in StoredUrls(row)[k]
    ensures row.None? ==> StoredUrls(row) == []
    ensures !Truthy(RowValue(row, "last_img_urls")) ==> StoredUrls(row) == []
  {
    var stored := RowValue(row, "last_img_urls");
    if row.Some? && Truthy(stored) {
      var parts := SplitOn(Text(stored), '\n');
      NonEmptySpec(parts);
      forall k | 0 <= k < |StoredUrls(row)| ensures '\n' !in StoredUrls(row)[k] {
        assert StoredUrls(row)[k] in parts;
      }
    }
  }

  /**
   * The history puts the new URL first, then the stored entries in their
   * stored order, and has `min(limit, 1 + stored)` entries for a
   * non-negative limit (so never more than `limit`).
   */
  lemma RecentImagesSpec(row: Option<Row>, newUrl: string, limit: int)
    ensures var r := RecentImages(row, newUrl, limit);
      && (limit >= 1 ==> r != [] && r[0] == newUrl)
      && (limit >= 0 ==> |r| == Min(limit, 1 + |StoredUrls(row)|) && |r| <= limit)
      && (forall k | 1 <= k < |r| :: r[k] == StoredUrls(row)[k - 1])
      && (forall k | 1 <= k < |r| :: r[k] != "" && '\n' !in r[k])
  {
    StoredUrlsSpec(row);
    var r := RecentImages(row, newUrl, limit);
    var all := [newUrl] + StoredUrls(row);
    assert r == all[..|r|];
    forall k | 1 <= k < |r| ensures r[k] == StoredUrls(row)[k - 1] {
      assert r[k] == all[k];
    }
  }

  lemma {:induction false} SplitOnFree(w: string, c: char)
    requires c !in w
    ensures SplitOn(w, c) == [w]
    decreases |w|
  {
    if w != [] {
      SplitOnFree(w[1..], c);
      assert w == [w[0]] + w[1..];
    }
  }

  lemma {:induction false} SplitOnFront(x: string, c: char, y: string)
    requires c !in x
    ensures SplitOn(x + [c] + y, c) == [x] + SplitOn(y, c)
    decreases |x|
  {
    var s := x + [c] + y;
    if x == [] {
      assert s == [c] + y;
      assert s[1..] == y;
    } else {
      assert s[1..] == x[1..] + [c] + y;
      SplitOnFront(x[1..], c, y);
      assert [x[0]] + x[1..] == x;
    }
  }

  /** Joining newline-free parts with a newline and splitting on it gives the parts back. */
  lemma {:induction false} SplitOnJoin(parts: seq<string>, c: char)
    requires |parts| >= 1
    requires forall k | 0 <= k < |parts| :: c !in parts[k]
    ensures SplitOn(Join(parts, [c]), c) == parts
    decreases |parts|
  {
    if |parts| == 1 {
      SplitOnFree(parts[0], c);
    } else {
      SplitOnJoin(parts[1..], c);
      SplitOnFront(parts[0], c, Join(parts[1..], [c]));
      assert parts == [parts[0]] + parts[1..];
    }
  }

  /** A row whose history column holds `text`. */
  function RowWithHistory(text: string): Row {
    map["last_img_urls" := PyStr(text)]
  }

  /**
   * The joined history reads back as the same list: storing what
   * `collect_last_images` returns and reading it again loses nothing, so
   * the next upload puts its URL in front of exactly this list.
   */
  lemma HistoryRoundTrip(row: Option<Row>, newUrl: string, limit: int)
    requires limit >= 1 && newUrl != "" && '\n' !in newUrl
    ensures var r := RecentImages(row, newUrl, limit);
      StoredUrls(Some(RowWithHistory(Join(r, "\n")))) == r
  {
    var r := RecentImages(row, newUrl, limit);
    RecentImagesSpec(row, newUrl, limit);
    assert forall k | 0 <= k < |r| :: r[k] != "" && '\n' !in r[k];
    SplitOnJoin(r, '\n');
    NonEmptySpec(r);
    JoinStartsWithFirst(r, "\n");
    assert Truthy(PyStr(Join(r, "\n")));
  }

  // ---------------------------------------------------------------------------
  // The upload handler (lines 94-143)

  /** What `upload()` does with a request. */
  datatype UploadResult =
    | UploadRejected(status: int)
    | UploadStored(saved: Saved, deviceId: string, patch: seq<(string, PyValue)>)

  const HTTP_400_BAD_REQUEST: int := 400
  const HTTP_415_UNSUPPORTED_MEDIA_TYPE: int := 415

  /** `req.headers.get("X-Device-ID") or "UNKNOWN"`. */
  function DeviceIdOf(header: Option<string>): string {
    if header.Some? && header.value != [] then header.value else "UNKNOWN"
  }

  /** The row update after a stored upload, in the order the source builds it. */
  function UploadPatch(saved: Saved, history: string, analysis: Option<string>): seq<(string, PyValue)> {
    [("last_seen", PyInt(saved.ts)), ("last_img_url", PyStr(saved.urlPath)),
     ("last_img_time", PyInt(saved.ts)), ("last_img_urls", PyStr(history))]
    + (if analysis.Some? then [("last_analysis", PyStr(analysis.value)), ("last_analysis_time", PyInt(saved.ts))]
       else [])
  }

  /**
   * `upload(req)`: the Authorization, X-Device-ID, Content-Type and
   * X-File-Name headers, the device's row, whether the body is empty, the
   * time, and the analysis text (the image analysis call is not modelled).
   * A client disconnect while the body is read is folded into `bodyEmpty`
   * and answered 400; the source answers 499 where Starlette defines it.
   */
  function HandleUpload(auth: Option<string>, deviceHeader: Option<string>, row: Option<Row>,
                        uploadToken: string, contentType: Option<string>, fileName: Option<string>,
                        bodyEmpty: bool, ts: int, analysis: Option<string>): UploadResult
  {
    var tok := GetBearer(auth);
    var deviceId := DeviceIdOf(deviceHeader);
    if !UploadAuthorized(tok, uploadToken, row) then UploadRejected(HTTP_401_UNAUTHORIZED)
    else if !Contains(contentType.GetOr(""), "image/jpeg") then UploadRejected(HTTP_415_UNSUPPORTED_MEDIA_TYPE)
    else if bodyEmpty then UploadRejected(HTTP_400_BAD_REQUEST)
    else
      var name := if fileName.Some? && fileName.value != [] then fileName.value else "";
      var saved := SaveImage(deviceId, ts, Some(name));
      var history := Join(RecentImages(row, saved.urlPath, 20), "\n");
      UploadStored(saved, deviceId, UploadPatch(saved, history, analysis))
  }

  /**
   * The checks run in order: an unauthorized request gets 401 whatever else
   * it carries, then a non-JPEG content type gets 415, then an empty body
   * 400; a stored upload records its URL path first in the device history.
   */
  lemma HandleUploadSpec(auth: Option<string>, deviceHeader: Option<string>, row: Option<Row>,
                         uploadToken: string, contentType: Option<string>, fileName: Option<string>,
                         bodyEmpty: bool, ts: int, analysis: Option<string>)
    ensures var r := HandleUpload(auth, deviceHeader, row, uploadToken, contentType, fileName, bodyEmpty, ts, analysis);
      && (!UploadAuthorized(GetBearer(auth), uploadToken, row) <==> r == UploadRejected(401))
      && (r.UploadStored? <==>
            UploadAuthorized(GetBearer(auth), uploadToken, row) &&
            Contains(contentType.GetOr(""), "image/jpeg") && !bodyEmpty)
      && (r.UploadStored? ==>
            && r.deviceId == DeviceIdOf(deviceHeader)
            && r.saved.urlPath == "/uploads/" + r.deviceId + "/" + r.saved.fname
            && EndsWith(Lower(r.saved.fname), ".jpg")
            && |r.patch| == (if analysis.Some? then 6 else 4)
            && r.patch[1] == ("last_img_url", PyStr(r.saved.urlPath))
            && r.patch[3].1.PyStr?
            && StartsWith(r.patch[3].1.s, r.saved.urlPath))
  {
    var r := HandleUpload(auth, deviceHeader, row, uploadToken, contentType, fileName, bodyEmpty, ts, analysis);
    if r.UploadStored? {
      var name := if fileName.Some? && fileName.value != [] then fileName.value else "";
      SaveImageSpec(DeviceIdOf(deviceHeader), ts, Some(name));
      FinalNameSpec(DeviceIdOf(deviceHeader), ts, Some(name));
      var hist := RecentImages(row, r.saved.urlPath, 20);
      RecentImagesSpec(row, r.saved.urlPath, 20);
      JoinPrefix(hist, "\n");
    }
  }

  lemma JoinPrefix(parts: seq<string>, sep: string)
    requires parts != []
    ensures StartsWith(Join(parts, sep), parts[0])
  {
    if |parts| > 1 {
      assert Join(parts, sep) == parts[0] + (sep + Join(parts[1..], sep));
    }
  }

  // ---------------------------------------------------------------------------
  // Generate-endpoint path (`run_ollama_analysis`, lines 177-189)

  /** The paths the selection keeps as they are. */
  predicate KeptPath(p: string) {
    || EndsWith(p, "/api/generate")
    || (!EndsWith(p, "/api") && EndsWith(p, "/generate") && Contains(p, "/api"))
    || (!EndsWith(p, "/api") && Contains(p, "/api/generate"))
  }

  /** The generate path chosen for the host's path, after trailing '/' are dropped. */
  function GeneratePath(rawPath: string): string {
    var path := RStripChar(rawPath, '/');
    if EndsWith(path, "/api/generate") then path
    else if EndsWith(path, "/api") then path + "/generate"
    else if EndsWith(path, "/generate") && Contains(path, "/api") then path
    else if Contains(path, "/api/generate") then path
    else if path != [] then path + "/api/generate" else "/api/generate"
  }

  lemma EndsWithAppend(p: string, q: string)
    ensures EndsWith(p + q, q)
  {
    assert (p + q)[|p + q| - |q|..] == q;
  }

  lemma EndsWithApi(p: string)
    requires EndsWith(p, "/api")
    ensures EndsWith(p + "/generate", "/api/generate")
  {
    var s := p + "/generate";
    assert s[|s| - 13..] == p[|p| - 4..] + "/generate";
  }

  /**
   * The selection keeps a path (trailing '/' dropped) that already names a
   * generate endpoint, appends "/generate" after "/api", and otherwise
   * appends "/api/generate"; the result never ends with '/' and is itself
   * a kept path.
   */
  lemma GeneratePathSpec(rawPath: string)
    ensures var path := RStripChar(rawPath, '/');
      var r := GeneratePath(rawPath);
      && (KeptPath(path) ==> r == path)
      && (EndsWith(path, "/api") ==> r == path + "/generate")
      && (!KeptPath(path) && !EndsWith(path, "/api") ==>
            r == if path != [] then path + "/api/generate" else "/api/generate")
      && KeptPath(r)
      && r != [] && r[|r| - 1] != '/'
  {
    var path := RStripChar(rawPath, '/');
    var r := GeneratePath(rawPath);
    if EndsWith(path, "/api/generate") {
    } else if EndsWith(path, "/api") {
      EndsWithApi(path);
    } else if EndsWith(path, "/generate") && Contains(path, "/api") {
    } else if Contains(path, "/api/generate") {
    } else if path != [] {
      EndsWithAppend(path, "/api/generate");
    }
  }

  /** Choosing the path twice gives the same path as choosing it once. */
  lemma GeneratePathIdempotent(rawPath: string)
    ensures GeneratePath(GeneratePath(rawPath)) == GeneratePath(rawPath)
  {
    var r := GeneratePath(rawPath);
    GeneratePathSpec(rawPath);
    assert RStripChar(r, '/') == r;
    GeneratePathSpec(r);
  }
}
