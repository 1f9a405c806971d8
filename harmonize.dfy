/**
 * The consumer's record harmonizer (`_harmonize`, `_valid_lat_lon` in
 * src/map_app_streamlit.py): column aliasing, unit conversion, numeric
 * coercion, timestamp parsing and the coordinate filter. Each step is a
 * whole-table operation whose decisions depend on the table's columns only,
 * as in pandas; its effect on one row is given by a row function.
 */
module Harmonize {
  import opened Wrappers
  import opened Calendar
  import opened Frame
  import opened Seqs

  /** Both coordinates below this magnitude count as the (0, 0) "no location" marker. */
  const NearZero: real := 0.000000001

  function Abs(x: real): real { if x < 0.0 then -x else x }

  /**
   * `_valid_lat_lon`: both values are numbers (not NaN), latitude lies in
   * [-90, 90], longitude in [-180, 180], and the pair is not (0, 0).
   */
  predicate ValidLatLon(lat: Value, lon: Value) {
    match (ToFloat(lat), ToFloat(lon))
    case (Some(la), Some(lo)) =>
      && -90.0 <= la <= 90.0 && -180.0 <= lo <= 180.0
      && !(Abs(la) < NearZero && Abs(lo) < NearZero)
    case _ => false
  }

  /** Coercing coordinates to numbers first (as `_harmonize` does) changes no verdict. */
  lemma ValidLatLonAfterCoerce(lat: Value, lon: Value)
    ensures ValidLatLon(Coerce(lat), Coerce(lon)) == ValidLatLon(lat, lon)
  {
  }

  /** The columns `_harmonize` guarantees (line 105). */
  const Required: set<string> :=
    {"facility_id", "name", "state", "fuel_tech", "latitude", "longitude", "power_mw", "timestamp"}

  /** The columns `_harmonize` coerces to numbers (line 110). */
  const Numeric: set<string> := {"latitude", "longitude", "power_mw", "emissions_tonnes"}

  /** Applies a row function to every row and sets the new column set. */
  function MapRows(t: Table, columns: set<string>, f: Row -> Row): (r: Table)
    ensures r.columns == columns
    ensures |r.rows| == |t.rows|
    ensures forall i :: 0 <= i < |t.rows| ==> r.rows[i] == f(t.rows[i])
  {
    Table(columns, seq(|t.rows|, i requires 0 <= i < |t.rows| => f(t.rows[i])))
  }

  /** Whether `df[canonical] = df[fallback]` happens for a table with columns `cols`. */
  predicate Aliases(cols: set<string>, canonical: string, fallback: string) {
    canonical !in cols && fallback in cols
  }

  function AliasRow(cols: set<string>, r: Row, canonical: string, fallback: string): Row {
    if Aliases(cols, canonical, fallback) then r[canonical := Cell(r, fallback)] else r
  }

  /** `if canonical not in df.columns and fallback in df.columns: df[canonical] = df[fallback]`. */
  function Alias(t: Table, canonical: string, fallback: string): Table {
    MapRows(t, if Aliases(t.columns, canonical, fallback) then t.columns + {canonical} else t.columns,
            (r: Row) => AliasRow(t.columns, r, canonical, fallback))
  }

  /** Kilograms to tonnes: `pd.to_numeric(v, errors="coerce") / 1000.0`. */
  function Tonnes(v: Value): (r: Value)
    ensures ToFloat(v).Some? ==> r == Num(ToFloat(v).value / 1000.0)
    ensures ToFloat(v).None? ==> r == Null
  {
    match Coerce(v)
    case Num(x) => Num(x / 1000.0)
    case _ => Null
  }

  /** `emissions_tonnes` derived for a table that lacks it (lines 92-97). */
  function DerivedTonnes(cols: set<string>, r: Row): Value {
    if "co2_kg" in cols then Tonnes(Cell(r, "co2_kg"))
    else if "emissions" in cols then Tonnes(Cell(r, "emissions"))
    else Null
  }

  function EmissionsRow(cols: set<string>, r: Row): Row {
    if "emissions_tonnes" in cols then r else r["emissions_tonnes" := DerivedTonnes(cols, r)]
  }

  /** Lines 91-97: derive `emissions_tonnes` unless the column already exists. */
  function AddEmissions(t: Table): Table {
    MapRows(t, t.columns + {"emissions_tonnes"}, (r: Row) => EmissionsRow(t.columns, r))
  }

  function TsRow(cols: set<string>, r: Row, pd: Pandas): Row {
    r["_ts" := if "timestamp" in cols then StampOf(pd.toDatetime(Cell(r, "timestamp"))) else Null]
  }

  /** Line 102: `_ts` is the parsed `timestamp`, or NaT everywhere when there is no such column. */
  function ParseTimestamps(t: Table, pd: Pandas): Table {
    MapRows(t, t.columns + {"_ts"}, (r: Row) => TsRow(t.columns, r, pd))
  }

  function FillRow(cols: set<string>, r: Row, cs: set<string>): Row {
    r - (cs - cols)
  }

  /** Lines 105-107: every listed column that is missing is added, filled with None. */
  function EnsureColumns(t: Table, cs: set<string>): Table {
    MapRows(t, t.columns + cs, (r: Row) => FillRow(t.columns, r, cs))
  }

  function NumericRow(r: Row, cs: set<string>): Row {
    r + map c | c in cs :: Coerce(Cell(r, c))
  }

  /** Lines 110-111: `df[c] = pd.to_numeric(df[c], errors="coerce")` for each listed column. */
  function ToNumeric(t: Table, cs: set<string>): Table {
    MapRows(t, t.columns + cs, (r: Row) => NumericRow(r, cs))
  }

  predicate HasValidCoordinates(r: Row) {
    ValidLatLon(Cell(r, "latitude"), Cell(r, "longitude"))
  }

  /** Lines 74-111: every step of `_harmonize` before the coordinate filter. */
  function Prepare(t: Table, pd: Pandas): (p: Table)
    ensures |p.rows| == |t.rows|
    ensures p.columns == t.columns + Required + {"emissions_tonnes", "_ts"}
  {
    var coords := Alias(Alias(t, "latitude", "lat"), "longitude", "lon");
    var named := Alias(Alias(coords, "name", "facility_name"), "power_mw", "power");
    var timed := ParseTimestamps(Alias(AddEmissions(named), "timestamp", "time"), pd);
    ToNumeric(EnsureColumns(timed, Required), Numeric)
  }

  /**
   * `_harmonize`: the prepared table keeping only rows with usable
   * coordinates; every canonical column exists afterwards.
   */
  function Harmonize(t: Table, pd: Pandas): (h: Table)
    ensures h.columns == t.columns + Required + {"emissions_tonnes", "_ts"}
    ensures forall r :: r in h.rows ==> ValidLatLon(Cell(r, "latitude"), Cell(r, "longitude"))
  {
    var p := Prepare(t, pd);
    Table(p.columns, Filter(p.rows, HasValidCoordinates))
  }

  /** The column a canonical column is read from: itself, else its alias, else none. */
  function Source(cols: set<string>, canonical: string, fallback: string): Option<string> {
    if canonical in cols then Some(canonical)
    else if fallback in cols then Some(fallback)
    else None
  }

  function FromColumns(cols: set<string>, r: Row, canonical: string, fallback: string): Value {
    match Source(cols, canonical, fallback)
    case Some(c) => Cell(r, c)
    case None => Null
  }

  /** `emissions_tonnes` as lines 91-97 and 111 define it. */
  function EmissionsFrom(cols: set<string>, r: Row): Value {
    if "emissions_tonnes" in cols then Coerce(Cell(r, "emissions_tonnes"))
    else DerivedTonnes(cols, r)
  }

  /** The columns `_harmonize` writes; every other input column passes through. */
  const Written: set<string> := Required + {"emissions_tonnes", "_ts"}

  /** Coordinates and power come from the column or its alias and are coerced to numbers. */
  ghost predicate MeasuresFrom(cols: set<string>, r: Row, h: Row) {
    && Cell(h, "latitude") == Coerce(FromColumns(cols, r, "latitude", "lat"))
    && Cell(h, "longitude") == Coerce(FromColumns(cols, r, "longitude", "lon"))
    && Cell(h, "power_mw") == Coerce(FromColumns(cols, r, "power_mw", "power"))
  }

  /** Descriptive columns are copied from the column (or alias), None when absent. */
  ghost predicate LabelsFrom(cols: set<string>, r: Row, h: Row) {
    && Cell(h, "name") == FromColumns(cols, r, "name", "facility_name")
    && Cell(h, "facility_id") == FromColumns(cols, r, "facility_id", "facility_id")
    && Cell(h, "state") == FromColumns(cols, r, "state", "state")
    && Cell(h, "fuel_tech") == FromColumns(cols, r, "fuel_tech", "fuel_tech")
  }

  /** The timestamp (or its alias) is kept, `_ts` parses it, tonnes are derived only when absent. */
  ghost predicate TimeFrom(cols: set<string>, r: Row, h: Row, pd: Pandas) {
    && Cell(h, "timestamp") == FromColumns(cols, r, "timestamp", "time")
    && Cell(h, "_ts") == (if Source(cols, "timestamp", "time").None? then Null
                          else StampOf(pd.toDatetime(FromColumns(cols, r, "timestamp", "time"))))
    && Cell(h, "emissions_tonnes") == EmissionsFrom(cols, r)
  }

  /** Every input column `_harmonize` does not write passes through unchanged. */
  ghost predicate OthersFrom(cols: set<string>, r: Row, h: Row) {
    forall c :: c in cols && c !in Written ==> Cell(h, c) == Cell(r, c)
  }

  /**
   * The reference for one harmonized row `h` made from input row `r` of a
   * table with columns `cols`.
   */
  ghost predicate HarmonizedFrom(cols: set<string>, r: Row, h: Row, pd: Pandas) {
    MeasuresFrom(cols, r, h) && LabelsFrom(cols, r, h) && TimeFrom(cols, r, h, pd) && OthersFrom(cols, r, h)
  }


  function AliasCols(cols: set<string>, canonical: string, fallback: string): set<string> {
    if Aliases(cols, canonical, fallback) then cols + {canonical} else cols
  }

  /** The columns after the four aliasing steps of lines 74-88. */
  function RenamedCols(cols: set<string>): set<string> {
    AliasCols(AliasCols(AliasCols(AliasCols(cols, "latitude", "lat"), "longitude", "lon"),
      "name", "facility_name"), "power_mw", "power")
  }

  /** One input row taken through the four aliasing steps of lines 74-88. */
  function RenamedRow(cols: set<string>, r: Row): Row {
    var c1 := AliasCols(cols, "latitude", "lat");
    var c2 := AliasCols(c1, "longitude", "lon");
    var c3 := AliasCols(c2, "name", "facility_name");
    AliasRow(c3, AliasRow(c2, AliasRow(c1, AliasRow(cols, r, "latitude", "lat"),
      "longitude", "lon"), "name", "facility_name"), "power_mw", "power")
  }

  /** One renamed row taken through the remaining steps, lines 91-111. */
  function FinishedRow(rc: set<string>, r: Row, pd: Pandas): Row {
    var ec := rc + {"emissions_tonnes"};
    var tc := AliasCols(ec, "timestamp", "time");
    NumericRow(FillRow(tc + {"_ts"}, TsRow(tc, AliasRow(ec, EmissionsRow(rc, r),
      "timestamp", "time"), pd), Required), Numeric)
  }

  lemma PrepareRows(t: Table, pd: Pandas, i: nat)
    requires i < |t.rows|
    ensures Prepare(t, pd).rows[i] == FinishedRow(RenamedCols(t.columns), RenamedRow(t.columns, t.rows[i]), pd)
  {
  }

  /** After aliasing, a canonical column holds what its source column held. */
  lemma RenamedFrom(cols: set<string>, r: Row, canonical: string, fallback: string)
    requires || (canonical == "latitude" && fallback == "lat")
             || (canonical == "longitude" && fallback == "lon")
             || (canonical == "name" && fallback == "facility_name")
             || (canonical == "power_mw" && fallback == "power")
    ensures FromColumns(RenamedCols(cols), RenamedRow(cols, r), canonical, canonical)
         == FromColumns(cols, r, canonical, fallback)
  {
  }

  /** Aliasing leaves every other column, and its presence, as it was. */
  lemma RenamedKeeps(cols: set<string>, r: Row, c: string)
    requires c !in {"latitude", "longitude", "name", "power_mw"}
    ensures c in RenamedCols(cols) <==> c in cols
    ensures Cell(RenamedRow(cols, r), c) == Cell(r, c)
  {
  }

  lemma NumericCell(r: Row, cs: set<string>, c: string)
    ensures Cell(NumericRow(r, cs), c) == if c in cs then Coerce(Cell(r, c)) else Cell(r, c)
  {
  }

  lemma FillCell(cols: set<string>, r: Row, cs: set<string>, c: string)
    ensures Cell(FillRow(cols, r, cs), c) == if c in cs && c !in cols then Null else Cell(r, c)
  {
  }

  /**
   * One column of a renamed row after the steps of lines 91-111: `Source` is
   * `c` when the renamed table has it, and the value `v` it reads is changed
   * only by numeric coercion.
   */
  lemma FinishedCell(rc: set<string>, r: Row, pd: Pandas, c: string)
    requires c in Required - {"timestamp"}
    ensures Cell(FinishedRow(rc, r, pd), c) ==
      if c in Numeric then Coerce(FromColumns(rc, r, c, c)) else FromColumns(rc, r, c, c)
  {
    var ec := rc + {"emissions_tonnes"};
    var tc := AliasCols(ec, "timestamp", "time");
    var r1 := AliasRow(ec, EmissionsRow(rc, r), "timestamp", "time");
    var r2 := TsRow(tc, r1, pd);
    var r3 := FillRow(tc + {"_ts"}, r2, Required);
    NumericCell(r3, Numeric, c);
    FillCell(tc + {"_ts"}, r2, Required, c);
    assert Cell(r2, c) == Cell(r, c);
  }

  lemma FinishedTime(rc: set<string>, r: Row, pd: Pandas)
    ensures var f := FinishedRow(rc, r, pd);
      && Cell(f, "timestamp") == FromColumns(rc, r, "timestamp", "time")
      && Cell(f, "_ts") == (if Source(rc, "timestamp", "time").None? then Null
                            else StampOf(pd.toDatetime(FromColumns(rc, r, "timestamp", "time"))))
  {
    var ec := rc + {"emissions_tonnes"};
    var tc := AliasCols(ec, "timestamp", "time");
    var r1 := AliasRow(ec, EmissionsRow(rc, r), "timestamp", "time");
    var r2 := TsRow(tc, r1, pd);
    var r3 := FillRow(tc + {"_ts"}, r2, Required);
    NumericCell(r3, Numeric, "timestamp");
    NumericCell(r3, Numeric, "_ts");
    FillCell(tc + {"_ts"}, r2, Required, "timestamp");
    FillCell(tc + {"_ts"}, r2, Required, "_ts");
    assert Cell(r1, "timestamp") == FromColumns(rc, r, "timestamp", "time") || "timestamp" !in tc;
  }

  lemma FinishedEmissions(rc: set<string>, r: Row, pd: Pandas)
    ensures Cell(FinishedRow(rc, r, pd), "emissions_tonnes") == EmissionsFrom(rc, r)
  {
    var ec := rc + {"emissions_tonnes"};
    var tc := AliasCols(ec, "timestamp", "time");
    var r1 := AliasRow(ec, EmissionsRow(rc, r), "timestamp", "time");
    var r2 := TsRow(tc, r1, pd);
    var r3 := FillRow(tc + {"_ts"}, r2, Required);
    NumericCell(r3, Numeric, "emissions_tonnes");
    FillCell(tc + {"_ts"}, r2, Required, "emissions_tonnes");
    var d := DerivedTonnes(rc, r);
    assert d.Null? || d.Num?;
  }

  lemma FinishedOther(rc: set<string>, r: Row, pd: Pandas, c: string)
    requires c in rc && c !in Written
    ensures Cell(FinishedRow(rc, r, pd), c) == Cell(r, c)
  {
    var ec := rc + {"emissions_tonnes"};
    var tc := AliasCols(ec, "timestamp", "time");
    var r1 := AliasRow(ec, EmissionsRow(rc, r), "timestamp", "time");
    var r2 := TsRow(tc, r1, pd);
    var r3 := FillRow(tc + {"_ts"}, r2, Required);
    NumericCell(r3, Numeric, c);
    FillCell(tc + {"_ts"}, r2, Required, c);
  }

  lemma HarmonizedMeasures(cols: set<string>, r: Row, pd: Pandas)
    ensures MeasuresFrom(cols, r, FinishedRow(RenamedCols(cols), RenamedRow(cols, r), pd))
  {
    var rc, rr := RenamedCols(cols), RenamedRow(cols, r);
    RenamedFrom(cols, r, "latitude", "lat");
    RenamedFrom(cols, r, "longitude", "lon");
    RenamedFrom(cols, r, "power_mw", "power");
    FinishedCell(rc, rr, pd, "latitude");
    FinishedCell(rc, rr, pd, "longitude");
    FinishedCell(rc, rr, pd, "power_mw");
  }

  /** A column that aliasing does not touch is copied, or None when absent. */
  lemma HarmonizedCopy(cols: set<string>, r: Row, pd: Pandas, c: string)
    requires c in {"facility_id", "state", "fuel_tech"}
    ensures Cell(FinishedRow(RenamedCols(cols), RenamedRow(cols, r), pd), c) == FromColumns(cols, r, c, c)
  {
    RenamedKeeps(cols, r, c);
    FinishedCell(RenamedCols(cols), RenamedRow(cols, r), pd, c);
  }

  lemma HarmonizedLabels(cols: set<string>, r: Row, pd: Pandas)
    ensures LabelsFrom(cols, r, FinishedRow(RenamedCols(cols), RenamedRow(cols, r), pd))
  {
    RenamedFrom(cols, r, "name", "facility_name");
    FinishedCell(RenamedCols(cols), RenamedRow(cols, r), pd, "name");
    HarmonizedCopy(cols, r, pd, "facility_id");
    HarmonizedCopy(cols, r, pd, "state");
    HarmonizedCopy(cols, r, pd, "fuel_tech");
  }

  lemma HarmonizedTime(cols: set<string>, r: Row, pd: Pandas)
    ensures TimeFrom(cols, r, FinishedRow(RenamedCols(cols), RenamedRow(cols, r), pd), pd)
  {
    var rc, rr := RenamedCols(cols), RenamedRow(cols, r);
    RenamedKeeps(cols, r, "timestamp");
    RenamedKeeps(cols, r, "time");
    RenamedKeeps(cols, r, "emissions_tonnes");
    RenamedKeeps(cols, r, "co2_kg");
    RenamedKeeps(cols, r, "emissions");
    FinishedTime(rc, rr, pd);
    FinishedEmissions(rc, rr, pd);
    assert FromColumns(rc, rr, "timestamp", "time") == FromColumns(cols, r, "timestamp", "time");
    assert EmissionsFrom(rc, rr) == EmissionsFrom(cols, r);
  }

  lemma HarmonizedOthers(cols: set<string>, r: Row, pd: Pandas)
    ensures OthersFrom(cols, r, FinishedRow(RenamedCols(cols), RenamedRow(cols, r), pd))
  {
    var rc, rr := RenamedCols(cols), RenamedRow(cols, r);
    forall c | c in cols && c !in Written
      ensures Cell(FinishedRow(rc, rr, pd), c) == Cell(r, c)
    {
      RenamedKeeps(cols, r, c);
      FinishedOther(rc, rr, pd, c);
    }
  }

  /** Every prepared row is its input row harmonized as `HarmonizedFrom` describes. */
  lemma PreparedRow(t: Table, pd: Pandas, i: nat)
    requires i < |t.rows|
    ensures HarmonizedFrom(t.columns, t.rows[i], Prepare(t, pd).rows[i], pd)
  {
    var cols, r := t.columns, t.rows[i];
    PrepareRows(t, pd, i);
    HarmonizedMeasures(cols, r, pd);
    HarmonizedLabels(cols, r, pd);
    HarmonizedTime(cols, r, pd);
    HarmonizedOthers(cols, r, pd);
  }

  /**
   * `_harmonize` keeps, in order, exactly the rows whose aliased coordinates
   * are valid, and each kept row is harmonized as `HarmonizedFrom` describes.
   */
  lemma HarmonizeSelectsRows(t: Table, pd: Pandas)
    ensures var kept := Positions(Prepare(t, pd).rows, HasValidCoordinates);
      && |kept| == |Harmonize(t, pd).rows|
      && StrictlyIncreasing(kept)
      && (forall k :: 0 <= k < |kept| ==>
            && kept[k] < |t.rows|
            && HarmonizedFrom(t.columns, t.rows[kept[k]], Harmonize(t, pd).rows[k], pd))
  {
    var p := Prepare(t, pd);
    FilterIsSelection(p.rows, HasValidCoordinates);
    forall i | 0 <= i < |t.rows|
      ensures HarmonizedFrom(t.columns, t.rows[i], p.rows[i], pd)
    {
      PreparedRow(t, pd, i);
    }
  }

  /** Line 114: an input row is kept exactly when its coordinates pass `_valid_lat_lon`. */
  lemma HarmonizeKeepsValid(t: Table, pd: Pandas)
    ensures var kept := Positions(Prepare(t, pd).rows, HasValidCoordinates);
      forall i :: 0 <= i < |t.rows| ==>
        (i in kept <==> ValidLatLon(FromColumns(t.columns, t.rows[i], "latitude", "lat"),
                                    FromColumns(t.columns, t.rows[i], "longitude", "lon")))
  {
    var p := Prepare(t, pd);
    var kept := Positions(p.rows, HasValidCoordinates);
    PositionsExact(p.rows, HasValidCoordinates);
    forall i | 0 <= i < |t.rows|
      ensures i in kept <==> ValidLatLon(FromColumns(t.columns, t.rows[i], "latitude", "lat"),
                                         FromColumns(t.columns, t.rows[i], "longitude", "lon"))
    {
      PreparedRow(t, pd, i);
      ValidLatLonAfterCoerce(FromColumns(t.columns, t.rows[i], "latitude", "lat"),
                             FromColumns(t.columns, t.rows[i], "longitude", "lon"));
    }
  }
}
