/**
 * Image file naming (`core/storage.py`): `safe_name` and how `save_image`
 * derives the stored file's name and its public URL path. Writing the file
 * and creating the directory are not part of this model; the Unix time the
 * name falls back to is a parameter.
 */
module Storage {
  import opened Strings
  import opened Wrappers

  /** The characters the `SAFE` pattern leaves alone: `[A-Za-z0-9_.-]`. */
  predicate SafeChar(c: char) {
    ('A' <= c <= 'Z') || ('a' <= c <= 'z') || ('0' <= c <= '9') || c == '_' || c == '-' || c == '.'
  }

  predicate AllSafe(s: string) {
    forall i | 0 <= i < |s| :: SafeChar(s[i])
  }

  /** `safe_name`: `SAFE.sub("_", name)`, one character at a time. */
  function SafeName(name: string): string
    decreases |name|
  {
    if name == [] then []
    else [if SafeChar(name[0]) then name[0] else '_'] + SafeName(name[1..])
  }

  /** The file name `save_image` stores under, and the URL path it returns. */
  datatype Saved = Saved(fname: string, urlPath: string, ts: int)

  /** `suggested or f"{device_id}_{ts}.jpg"`. */
  function SuggestedOrDefault(deviceId: string, ts: int, suggested: Option<string>): string {
    if suggested.Some? && suggested.value != [] then suggested.value
    else deviceId + "_" + IntToString(ts) + ".jpg"
  }

  /** The name after sanitising, with ".jpg" appended when it does not end so in any case. */
  function FinalName(deviceId: string, ts: int, suggested: Option<string>): string {
    var fname := SafeName(SuggestedOrDefault(deviceId, ts, suggested));
    if !EndsWith(Lower(fname), ".jpg") then fname + ".jpg" else fname
  }

  /** `save_image(device_id, raw, suggested)` at time `ts`, without the file write. */
  function SaveImage(deviceId: string, ts: int, suggested: Option<string>): Saved {
    var fname := FinalName(deviceId, ts, suggested);
    Saved(fname, "/uploads/" + deviceId + "/" + fname, ts)
  }

  // ---------------------------------------------------------------------------
  // Properties

  /**
   * `safe_name` keeps the length, keeps every allowed character in place,
   * turns every other one into '_', and so yields only allowed characters.
   */
  lemma {:induction false} SafeNameSpec(name: string)
    ensures |SafeName(name)| == |name|
    ensures forall i | 0 <= i < |name| ::
      SafeName(name)[i] == if SafeChar(name[i]) then name[i] else '_'
    ensures AllSafe(SafeName(name))
    decreases |name|
  {
    if name != [] {
      SafeNameSpec(name[1..]);
      var r := SafeName(name);
      assert r == [r[0]] + SafeName(name[1..]);
      forall i | 0 <= i < |name|
        ensures r[i] == if SafeChar(name[i]) then name[i] else '_'
      {
        if i > 0 {
          assert r[i] == SafeName(name[1..])[i - 1];
          assert name[i] == name[1..][i - 1];
        }
      }
    }
  }

  /** A name made only of allowed characters is left as it is. */
  lemma {:induction false} SafeNameOfSafe(name: string)
    requires AllSafe(name)
    ensures SafeName(name) == name
    decreases |name|
  {
    if name != [] {
      assert AllSafe(name[1..]) by {
        forall i | 0 <= i < |name[1..]| ensures SafeChar(name[1..][i]) {
          assert name[1..][i] == name[i + 1];
        }
      }
      SafeNameOfSafe(name[1..]);
      assert name == [name[0]] + name[1..];
    }
  }

  /** `safe_name` is idempotent. */
  lemma SafeNameIdempotent(name: string)
    ensures SafeName(SafeName(name)) == SafeName(name)
  {
    SafeNameSpec(name);
    SafeNameOfSafe(SafeName(name));
  }

  lemma LowerAppend(a: string, b: string)
    ensures Lower(a + b) == Lower(a) + Lower(b)
  {
  }

  lemma AllSafeAppend(a: string, b: string)
    requires AllSafe(a) && AllSafe(b)
    ensures AllSafe(a + b)
  {
    forall i | 0 <= i < |a + b| ensures SafeChar((a + b)[i]) {
      if i >= |a| {
        assert (a + b)[i] == b[i - |a|];
      }
    }
  }

  /**
   * The stored name always ends in ".jpg" in any case and holds only allowed
   * characters; ".jpg" is appended exactly when the sanitised name lacks it.
   */
  lemma FinalNameSpec(deviceId: string, ts: int, suggested: Option<string>)
    ensures var f := FinalName(deviceId, ts, suggested);
      var s := SafeName(SuggestedOrDefault(deviceId, ts, suggested));
      && EndsWith(Lower(f), ".jpg")
      && AllSafe(f)
      && (EndsWith(Lower(s), ".jpg") ==> f == s)
      && (!EndsWith(Lower(s), ".jpg") ==> f == s + ".jpg")
  {
    var n := SuggestedOrDefault(deviceId, ts, suggested);
    assert AllSafe(SafeName(n)) by {
      SafeNameSpec(n);
    }
    JpegSuffix(SafeName(n));
  }

  /** Appending ".jpg" to a safe name that lacks it gives a safe name ending so. */
  lemma JpegSuffix(s: string)
    requires AllSafe(s)
    ensures var f := if !EndsWith(Lower(s), ".jpg") then s + ".jpg" else s;
      EndsWith(Lower(f), ".jpg") && AllSafe(f)
  {
    if !EndsWith(Lower(s), ".jpg") {
      LowerEndsJpeg(s);
      assert AllSafe(".jpg");
      AllSafeAppend(s, ".jpg");
    }
  }

  lemma LowerEndsJpeg(s: string)
    ensures EndsWith(Lower(s + ".jpg"), ".jpg")
  {
    var t := s + ".jpg";
    var l := Lower(t);
    assert t[|s|] == '.' && t[|s| + 1] == 'j' && t[|s| + 2] == 'p' && t[|s| + 3] == 'g';
    assert l[|s|] == '.' && l[|s| + 1] == 'j' && l[|s| + 2] == 'p' && l[|s| + 3] == 'g';
    assert l[|l| - 4..] == ".jpg";
  }

  lemma IntTextSafe(i: int)
    ensures AllSafe(IntToString(i))
  {
    IntToStringShape(i);
  }

  /**
   * Without a suggested name, a device id made of allowed characters gives
   * exactly `{device_id}_{ts}.jpg`.
   */
  lemma FallbackName(deviceId: string, ts: int, suggested: Option<string>)
    requires suggested.None? || suggested.value == []
    requires AllSafe(deviceId)
    ensures FinalName(deviceId, ts, suggested) == deviceId + "_" + IntToString(ts) + ".jpg"
  {
    var n := deviceId + "_" + IntToString(ts) + ".jpg";
    assert SuggestedOrDefault(deviceId, ts, suggested) == n;
    assert AllSafe(n) by {
      IntTextSafe(ts);
      assert AllSafe("_") && AllSafe(".jpg");
      AllSafeAppend(deviceId, "_");
      AllSafeAppend(deviceId + "_", IntToString(ts));
      AllSafeAppend(deviceId + "_" + IntToString(ts), ".jpg");
    }
    SafeNameOfSafe(n);
    assert EndsWith(Lower(n), ".jpg") by {
      LowerAppend(deviceId + "_" + IntToString(ts), ".jpg");
      assert Lower(".jpg") == ".jpg";
    }
  }

  /** A suggested name that is already safe and ends in ".JPG" or ".jpg" is kept. */
  lemma SuggestedKept(deviceId: string, ts: int, name: string)
    requires name != [] && AllSafe(name) && EndsWith(Lower(name), ".jpg")
    ensures FinalName(deviceId, ts, Some(name)) == name
  {
    SafeNameOfSafe(name);
  }

  /** The URL path is `/uploads/{device_id}/{fname}` over the final, sanitised name. */
  lemma SaveImageSpec(deviceId: string, ts: int, suggested: Option<string>)
    ensures var r := SaveImage(deviceId, ts, suggested);
      && r.urlPath == "/uploads/" + deviceId + "/" + r.fname
      && r.fname == FinalName(deviceId, ts, suggested)
      && r.ts == ts
      && StartsWith(r.urlPath, "/uploads/")
      && EndsWith(Lower(r.urlPath), ".jpg")
  {
    var r := SaveImage(deviceId, ts, suggested);
    FinalNameSpec(deviceId, ts, suggested);
    var pre := "/uploads/" + deviceId + "/";
    assert r.urlPath == pre + r.fname;
    LowerAppend(pre, r.fname);
    assert Lower(r.urlPath)[|Lower(r.urlPath)| - 4..] == Lower(r.fname)[|Lower(r.fname)| - 4..];
  }
}
