/**
 * The Python value rules the backend's request and database helpers rely on:
 * truthiness, `str()`, `int()`, `x or y`, and the coercion helpers that
 * `routes/admin.py` and `routes/device.py` each define with identical bodies
 * (`_row_value`, `_str_or_default`, `_int_or_default`, `_bool_or_default`),
 * together with `_clamp`, `_clean_str`, `_clean_int` from `routes/device.py`
 * and `_normalize_int` from `routes/upload.py`.
 */
module PyValues {
  import opened Strings
  import opened Wrappers

  /** A column value as SQLite hands it to Python: NULL, an integer or text. */
  datatype PyValue = PyNone | PyInt(i: int) | PyStr(s: string)

  /** A database row: column name to value. A missing column reads as absent. */
  type Row = map<string, PyValue>

  /** Python truthiness. */
  predicate Truthy(v: PyValue) {
    match v
    case PyNone => false
    case PyInt(i) => i != 0
    case PyStr(s) => s != []
  }

  /** Python `x or y`. */
  function Or(x: PyValue, y: PyValue): (r: PyValue)
    ensures r == x || r == y
    ensures Truthy(r) <==> Truthy(x) || Truthy(y)
    ensures Truthy(y) ==> Truthy(r)
  {
    if Truthy(x) then x else y
  }

  /** Python `str(v)`. */
  function Text(v: PyValue): string {
    match v
    case PyNone => "None"
    case PyInt(i) => IntToString(i)
    case PyStr(s) => s
  }

  /** Python `int(v)`; `None` stands for the `TypeError` or `ValueError` it raises. */
  function IntOf(v: PyValue): Option<int> {
    match v
    case PyNone => None
    case PyInt(i) => Some(i)
    case PyStr(s) => ParsePyInt(s)
  }

  /**
   * `_row_value(row, key)`: the column, or `None` when there is no row
   * (`TypeError`) or no such column (`KeyError`).
   */
  function RowValue(row: Option<Row>, key: string): (r: PyValue)
    ensures row.Some? && key in row.value ==> r == row.value[key]
    ensures row.None? || key !in row.value ==> r == PyNone
  {
    if row.Some? && key in row.value then row.value[key] else PyNone
  }

  // ---------------------------------------------------------------------------
  // Coercions

  /** `_str_or_default` (and `_clean_str`, which has the same body). */
  function StrOrDefault(v: PyValue, default: string): string {
    if v.PyNone? then default
    else
      var text := Strip(Text(v));
      if text != [] then text else default
  }

  /** `_int_or_default`. */
  function IntOrDefault(v: PyValue, default: int): int {
    if v.PyNone? then default
    else if v.PyStr? && Strip(v.s) == [] then default
    else
      var value := if v.PyStr? then PyStr(Strip(v.s)) else v;
      match IntOf(value)
      case Some(i) => i
      case None => default
  }

  /** The lower-cased words `_bool_or_default` reads as true and as false. */
  predicate TrueWord(w: string) { w == "1" || w == "true" || w == "yes" || w == "on" }
  predicate FalseWord(w: string) { w == "0" || w == "false" || w == "no" || w == "off" }

  /** `_bool_or_default`. */
  function BoolOrDefault(v: PyValue, default: bool): bool {
    if v.PyNone? then default
    else if v.PyStr? && TrueWord(Lower(Strip(v.s))) then true
    else if v.PyStr? && FalseWord(Lower(Strip(v.s))) then false
    else
      match IntOf(v)
      case Some(i) => i != 0
      case None => default
  }

  /** `_clamp(value, low, high)`. */
  function Clamp(value: int, low: int, high: int): int {
    if value < low then low else if value > high then high else value
  }

  /** `_clean_int`: a positive integer, or the default. */
  function CleanInt(v: PyValue, default: int): int {
    if v.PyNone? then default
    else
      match IntOf(v)
      case None => default
      case Some(i) => if i > 0 then i else default
  }

  /** `_normalize_int`: as `_clean_int`, with an explicit blank-string check first. */
  function NormalizeInt(v: PyValue, fallback: int): int {
    if v.PyNone? then fallback
    else if v.PyStr? && Strip(v.s) == [] then fallback
    else
      var value := if v.PyStr? then PyStr(Strip(v.s)) else v;
      match IntOf(value)
      case None => fallback
      case Some(i) => if i > 0 then i else fallback
  }

  // ---------------------------------------------------------------------------
  // Properties

  lemma IntToStringStripped(i: int)
    ensures Strip(IntToString(i)) == IntToString(i)
  {
    var t := IntToString(i);
    IntToStringShape(i);
    assert IsDigit(t[|t| - 1]);
    assert t[0] == '-' || IsDigit(t[0]);
    StripNoEdgeSpace(t);
  }

  /**
   * `_str_or_default` gives the default for `None` and for text that is blank
   * after `str()`, and otherwise the stripped text, which is never blank.
   */
  lemma StrOrDefaultSpec(v: PyValue, default: string)
    ensures var r := StrOrDefault(v, default);
      && (v.PyNone? ==> r == default)
      && (v.PyStr? && Strip(v.s) == [] ==> r == default)
      && (!v.PyNone? && Strip(Text(v)) != [] ==> r == Strip(Text(v)) && Strip(r) == r)
      && (v.PyInt? ==> r == IntToString(v.i))
  {
    if v.PyInt? {
      IntToStringStripped(v.i);
    }
    if !v.PyNone? {
      StripIdempotent(Text(v));
    }
  }

  /** Feeding a result back in gives the same result, for a default with no edge space. */
  lemma StrOrDefaultIdempotent(v: PyValue, default: string)
    requires Strip(default) == default
    ensures StrOrDefault(PyStr(StrOrDefault(v, default)), default) == StrOrDefault(v, default)
  {
    var r := StrOrDefault(v, default);
    assert Strip(r) == r by {
      StrOrDefaultSpec(v, default);
    }
    assert Text(PyStr(r)) == r;
  }

  /** Stripping a string first does not change what `int()` makes of it. */
  lemma ParseStripped(s: string)
    ensures ParsePyInt(Strip(s)) == ParsePyInt(s)
  {
    StripIdempotent(s);
  }

  /**
   * `_int_or_default` is `int(value)` with the default in place of every
   * failure: `None`, a blank string and unparseable text all give the default.
   */
  lemma IntOrDefaultSpec(v: PyValue, default: int)
    ensures IntOrDefault(v, default) == IntOf(v).GetOr(default)
    ensures v.PyNone? ==> IntOrDefault(v, default) == default
    ensures v.PyStr? && Strip(v.s) == [] ==> IntOrDefault(v, default) == default
    ensures v.PyStr? && ParsePyInt(v.s).None? ==> IntOrDefault(v, default) == default
  {
    if v.PyStr? {
      ParseStripped(v.s);
    }
  }

  /** The text of an integer reads back as that integer, whatever the default. */
  lemma IntOrDefaultOfText(i: int, default: int)
    ensures IntOrDefault(PyStr(IntToString(i)), default) == i
    ensures IntOrDefault(PyInt(i), default) == i
  {
    ParseIntToString(i);
    IntOrDefaultSpec(PyStr(IntToString(i)), default);
  }

  /**
   * `_bool_or_default`: the true words give true and the false words false
   * (after strip and lower-case), `None` gives the default, and any other
   * value is true exactly when it is a non-zero integer.
   */
  lemma BoolOrDefaultSpec(v: PyValue, default: bool)
    ensures v.PyNone? ==> BoolOrDefault(v, default) == default
    ensures v.PyStr? && TrueWord(Lower(Strip(v.s))) ==> BoolOrDefault(v, default)
    ensures v.PyStr? && FalseWord(Lower(Strip(v.s))) ==> !BoolOrDefault(v, default)
    ensures v.PyInt? ==> BoolOrDefault(v, default) == (v.i != 0)
    ensures v.PyStr? && !TrueWord(Lower(Strip(v.s))) && !FalseWord(Lower(Strip(v.s))) ==>
      BoolOrDefault(v, default) == match ParsePyInt(v.s) case Some(i) => i != 0 case None => default
  {
    if v.PyStr? {
      assert !(TrueWord(Lower(Strip(v.s))) && FalseWord(Lower(Strip(v.s))));
    }
  }

  /** The 1/0 a patch stores for a flag reads back as that flag. */
  lemma BoolOrDefaultOfFlag(b: bool, default: bool)
    ensures BoolOrDefault(PyInt(if b then 1 else 0), default) == b
  {
  }

  /**
   * `_clamp` lies in range and leaves an in-range value alone; it is the same
   * as the `max(low, min(high, value))` form used in `routes/admin.py`.
   */
  lemma ClampSpec(value: int, low: int, high: int)
    requires low <= high
    ensures low <= Clamp(value, low, high) <= high
    ensures low <= value <= high ==> Clamp(value, low, high) == value
    ensures Clamp(value, low, high) == Max(low, Min(high, value))
  {
  }

  function Min(a: int, b: int): int { if a <= b then a else b }
  function Max(a: int, b: int): int { if a >= b then a else b }

  /** `_clean_int` is positive unless the default is not, and keeps a positive parse. */
  lemma CleanIntSpec(v: PyValue, default: int)
    ensures var r := CleanInt(v, default);
      && (r > 0 || r == default)
      && (v.PyNone? ==> r == default)
      && (IntOf(v).None? ==> r == default)
      && (IntOf(v).Some? && IntOf(v).value > 0 ==> r == IntOf(v).value)
      && (IntOf(v).Some? && IntOf(v).value <= 0 ==> r == default)
  {
  }

  /** `_normalize_int` behaves exactly as `_clean_int`: the blank check changes nothing. */
  lemma NormalizeIsClean(v: PyValue, fallback: int)
    ensures NormalizeInt(v, fallback) == CleanInt(v, fallback)
  {
    if v.PyStr? {
      ParseStripped(v.s);
    }
  }
}
