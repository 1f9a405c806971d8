/**
 * A pandas DataFrame as the two programs use it: a set of column names and a
 * sequence of rows, each row mapping column names to cell values.
 */
module Frame {
  import opened Wrappers
  import opened Calendar

  /**
   * A cell. `Null` is every missing marker pandas uses (None, NaN, NaT);
   * `Stamp` is a parsed UTC instant in nanoseconds since the epoch.
   */
  datatype Value = Null | Num(x: real) | Text(s: string) | Stamp(nanos: int)

  /** A row; a column the row does not mention holds `Null`. */
  type Row = map<string, Value>

  datatype Table = Table(columns: set<string>, rows: seq<Row>)

  function Cell(r: Row, c: string): Value {
    if c in r then r[c] else Null
  }

  /** `DataFrame.empty`: no rows or no columns. */
  predicate IsEmpty(t: Table) {
    t.rows == [] || t.columns == {}
  }

  /**
   * The collaborators the model does not re-implement: pandas' timestamp
   * parser (`pd.to_datetime(v, utc=True, errors="coerce")`, `None` for NaT)
   * and Python's `str` of a number or a timestamp.
   */
  datatype Pandas = Pandas(toDatetime: Value -> Option<DateTime>, text: Value -> string)

  /** The value of a non-empty string of decimal digits. */
  function DecimalDigits(s: string): (n: real)
    requires forall i :: 0 <= i < |s| ==> IsDigit(s[i])
    ensures n >= 0.0
  {
    ReadDigits(s) as real
  }

  predicate AllDigits(s: string) {
    forall i :: 0 <= i < |s| ==> IsDigit(s[i])
  }

  /** The position of the first `.` in `s`, if any. */
  function FirstDot(s: string): (r: Option<nat>)
    ensures r.Some? ==> r.value < |s|
  {
    if s == [] then None
    else if s[0] == '.' then Some(0)
    else match FirstDot(s[1..])
      case Some(k) => Some(k + 1)
      case None => None
  }

  /** `FirstDot` finds a dot, no dot comes before it, and it finds none only when there is none. */
  lemma {:induction false} FirstDotIsFirst(s: string)
    ensures FirstDot(s).Some? ==> s[FirstDot(s).value] == '.'
    ensures FirstDot(s).Some? ==> forall i :: 0 <= i < FirstDot(s).value ==> s[i] != '.'
    ensures FirstDot(s).None? ==> forall i :: 0 <= i < |s| ==> s[i] != '.'
  {
    if s != [] && s[0] != '.' {
      FirstDotIsFirst(s[1..]);
      assert forall i :: 0 < i < |s| ==> s[i] == s[1..][i - 1];
    }
  }

  /** An unsigned decimal `ddd`, `ddd.`, `.ddd` or `ddd.ddd` with at least one digit. */
  function ParseUnsigned(s: string): (r: Option<real>)
    ensures r.Some? ==> r.value >= 0.0
  {
    if |s| > 0 && AllDigits(s) then Some(DecimalDigits(s))
    else match FirstDot(s)
      case None => None
      case Some(k) =>
        var whole, frac := s[..k], s[k + 1..];
        if AllDigits(whole) && AllDigits(frac) && |whole| + |frac| > 0 then
          Some(DecimalDigits(whole) + DecimalDigits(frac) / Pow10(|frac|) as real)
        else None
  }

  /** A signed decimal number in text, as `float(s)` and `pd.to_numeric` read it. */
  function ParseDecimal(s: string): Option<real> {
    if |s| > 0 && s[0] == '-' then
      match ParseUnsigned(s[1..])
      case Some(x) => Some(-x)
      case None => None
    else if |s| > 0 && s[0] == '+' then ParseUnsigned(s[1..])
    else ParseUnsigned(s)
  }

  /**
   * Python's `float(v)` followed by `pd.isna`: the finite number `v` stands
   * for, or `None` when `float` raises or yields NaN.
   */
  function ToFloat(v: Value): (r: Option<real>)
    ensures v.Num? ==> r == Some(v.x)
    ensures v.Null? || v.Stamp? ==> r.None?
  {
    match v
    case Null => None
    case Num(x) => Some(x)
    case Text(s) => ParseDecimal(s)
    case Stamp(_) => None
  }

  /** `pd.to_numeric(v, errors="coerce")`: a number, or `Null` when it is not one. */
  function Coerce(v: Value): (r: Value)
    ensures r.Null? || r.Num?
    ensures r.Num? <==> ToFloat(v).Some?
    ensures r.Num? ==> r.x == ToFloat(v).value
  {
    match ToFloat(v)
    case Some(x) => Num(x)
    case None => Null
  }

  /** `Coerce` leaves numeric data as it is. */
  lemma CoerceIdempotent(v: Value)
    ensures Coerce(Coerce(v)) == Coerce(v)
  {
  }

  /** Python's `str(v)` of a cell value. */
  function Str(v: Value, pd: Pandas): string {
    match v
    case Text(s) => s
    case Null => "nan"
    case _ => pd.text(v)
  }

  /** A parsed instant as a cell value; a failed parse is NaT. */
  function StampOf(t: Option<DateTime>): Value {
    match t
    case Some(d) => Stamp(EpochNanos(d))
    case None => Null
  }

  /** The parsed `_ts` of a row; None stands for NaT. */
  function TsOf(r: Row): Option<int> {
    match Cell(r, "_ts")
    case Stamp(n) => Some(n)
    case _ => None
  }
}
