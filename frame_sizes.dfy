/**
 * The pure half of the firmware's configuration storage: the frame-size table
 * that maps preference/backend keys such as "VGA" to driver frame sizes and
 * human-readable labels, and the derivation of the default upload URL from the
 * backend base URL.
 */
module FrameSizes {
  import opened Strings
  import opened EspCamera

  /** One row of the frame-size table. */
  datatype FsItem = FsItem(key: string, size: FrameSize, display: string)

  /** The table, in the order the lookups scan it. */
  const Table: seq<FsItem> := [
    FsItem("QQVGA", FRAMESIZE_QQVGA, "160x120 (QQVGA)"),
    FsItem("QVGA", FRAMESIZE_QVGA, "320x240 (QVGA)"),
    FsItem("CIF", FRAMESIZE_CIF, "400x296 (CIF)"),
    FsItem("VGA", FRAMESIZE_VGA, "640x480 (VGA)"),
    FsItem("SVGA", FRAMESIZE_SVGA, "800x600 (SVGA)"),
    FsItem("XGA", FRAMESIZE_XGA, "1024x768 (XGA)"),
    FsItem("SXGA", FRAMESIZE_SXGA, "1280x1024 (SXGA)"),
    FsItem("UXGA", FRAMESIZE_UXGA, "1600x1200 (UXGA)")
  ]

  /** Index of the first row at or after `from` whose key equals `key` ignoring case, or -1. */
  function KeyIndex(key: string, from: nat): (r: int)
    ensures r == -1 || (from <= r < |Table| && EqualsIgnoreCase(key, Table[r].key))
    ensures r == -1 ==> forall i | from <= i < |Table| :: !EqualsIgnoreCase(key, Table[i].key)
    ensures r != -1 ==> forall i | from <= i < r :: !EqualsIgnoreCase(key, Table[i].key)
    decreases |Table| - from
  {
    if from >= |Table| then -1
    else if EqualsIgnoreCase(key, Table[from].key) then from
    else KeyIndex(key, from + 1)
  }

  /** Index of the first row at or after `from` whose frame size is `fs`, or -1. */
  function ValIndex(fs: FrameSize, from: nat): (r: int)
    ensures r == -1 || (from <= r < |Table| && Table[r].size == fs)
    ensures r == -1 ==> forall i | from <= i < |Table| :: Table[i].size != fs
    ensures r != -1 ==> forall i | from <= i < r :: Table[i].size != fs
    decreases |Table| - from
  {
    if from >= |Table| then -1
    else if Table[from].size == fs then from
    else ValIndex(fs, from + 1)
  }

  /** `framesizeFromKey`: first case-insensitive key match; VGA when nothing matches. */
  function FramesizeFromKey(key: string): FrameSize {
    var i := KeyIndex(key, 0);
    if i < 0 then FRAMESIZE_VGA else Table[i].size
  }

  /** `keyFromFramesize`: the key of the first row with this size; "VGA" when none. */
  function KeyFromFramesize(fs: FrameSize): string {
    var i := ValIndex(fs, 0);
    if i < 0 then "VGA" else Table[i].key
  }

  /** `labelFromFramesize`: the label of the first row with this size; the VGA label when none. */
  function LabelFromFramesize(fs: FrameSize): string {
    var i := ValIndex(fs, 0);
    if i < 0 then "640x480 (VGA)" else Table[i].display
  }

  /** `defaultUploadUrl`: "" for an empty base, otherwise the base's "upload" endpoint. */
  function DefaultUploadUrl(base: string): string {
    if base == [] then ""
    else if EndsWith(base, "/") then base + "upload"
    else base + "/upload"
  }

  // ---------------------------------------------------------------------------
  // Properties of the table and the lookups

  /** The table lists strictly increasing frame sizes, so the driver's ordering of sizes is the table's. */
  lemma TableIncreasing()
    ensures forall i, j | 0 <= i < j < |Table| :: Table[i].size < Table[j].size
  {
  }

  /** No two keys of the table are equal ignoring case. */
  lemma TableKeysDistinct()
    ensures forall i, j | 0 <= i < |Table| && 0 <= j < |Table| && i != j ::
      !EqualsIgnoreCase(Table[i].key, Table[j].key)
  {
    forall i, j | 0 <= i < |Table| && 0 <= j < |Table| && i != j
      ensures !EqualsIgnoreCase(Table[i].key, Table[j].key)
    {
      var a, b := Table[i].key, Table[j].key;
      if |a| == |b| {
        if a[0] != b[0] {
          assert Lower(a)[0] != Lower(b)[0];
        } else {
          assert Lower(a)[1] != Lower(b)[1];
        }
      }
    }
  }

  /** A key that matches row `i` ignoring case looks up row `i`'s frame size. */
  lemma FromKeyMatchingRow(key: string, i: nat)
    requires i < |Table| && EqualsIgnoreCase(key, Table[i].key)
    ensures FramesizeFromKey(key) == Table[i].size
  {
    TableKeysDistinct();
    var r := KeyIndex(key, 0);
    if r != i {
      assert 0 <= r && r < i ==> EqualsIgnoreCase(Table[r].key, Table[i].key);
    }
  }

  /** An unknown key gives VGA. */
  lemma FromUnknownKey(key: string)
    requires forall i | 0 <= i < |Table| :: !EqualsIgnoreCase(key, Table[i].key)
    ensures FramesizeFromKey(key) == FRAMESIZE_VGA
  {
    assert KeyIndex(key, 0) == -1;
  }

  /** Row `i`'s size maps back to row `i`'s key and label. */
  lemma KeyAndLabelOfRow(i: nat)
    requires i < |Table|
    ensures KeyFromFramesize(Table[i].size) == Table[i].key
    ensures LabelFromFramesize(Table[i].size) == Table[i].display
  {
    TableIncreasing();
    var r := ValIndex(Table[i].size, 0);
    assert r == i;
  }

  /** A size not in the table gets the VGA key and label. */
  lemma KeyAndLabelOfUnknown(fs: FrameSize)
    requires forall i | 0 <= i < |Table| :: Table[i].size != fs
    ensures KeyFromFramesize(fs) == "VGA" && LabelFromFramesize(fs) == "640x480 (VGA)"
  {
    assert ValIndex(fs, 0) == -1;
  }

  /** Round trip: every table size survives key and back. */
  lemma FromKeyOfKey(fs: FrameSize)
    requires exists i | 0 <= i < |Table| :: Table[i].size == fs
    ensures FramesizeFromKey(KeyFromFramesize(fs)) == fs
  {
    var i :| 0 <= i < |Table| && Table[i].size == fs;
    KeyAndLabelOfRow(i);
    FromKeyMatchingRow(Table[i].key, i);
  }

  /** Round trip: any spelling of a table key, in any letter case, comes back as the canonical key. */
  lemma KeyOfFromKey(key: string, i: nat)
    requires i < |Table| && EqualsIgnoreCase(key, Table[i].key)
    ensures KeyFromFramesize(FramesizeFromKey(key)) == Table[i].key
  {
    FromKeyMatchingRow(key, i);
    KeyAndLabelOfRow(i);
  }

  /** An unknown size falls back to the VGA key, which is itself in the table. */
  lemma KeyFromFramesizeInTable(fs: FrameSize)
    ensures exists i | 0 <= i < |Table| :: Table[i].key == KeyFromFramesize(fs)
  {
    var r := ValIndex(fs, 0);
    if r == -1 {
      assert Table[3].key == "VGA";
    }
  }

  /**
   * `defaultUploadUrl` is "" only for an empty base; otherwise it is the base,
   * with one trailing '/' dropped if it has one, followed by "/upload".
   */
  lemma DefaultUploadUrlShape(base: string)
    ensures base == [] <==> DefaultUploadUrl(base) == []
    ensures base != [] && EndsWith(base, "/") ==>
      DefaultUploadUrl(base) == base[..|base| - 1] + "/upload"
    ensures base != [] && !EndsWith(base, "/") ==> DefaultUploadUrl(base) == base + "/upload"
  {
    if base != [] && EndsWith(base, "/") {
      assert base == base[..|base| - 1] + "/";
    }
  }
}
