/**
 * The producer (src/mqtt_publisher_loop.py): it loads and cleans the CSV,
 * orders it by time and facility, and replays it round after round,
 * transmitting a row only when its facility's power or CO2 reading changed
 * since the last message sent for that facility.
 */
module Publisher {
  import opened Wrappers
  import opened Calendar
  import opened Frame
  import opened Seqs
  import opened Sorting

  /** `need`: the columns `_load_csv` requires, in its order (lines 40-43). */
  const Need: seq<string> :=
    ["facility_code", "facility_name", "timestamp", "power_mw", "co2_kg", "region", "fuel_tech", "lat", "lon"]

  /**
   * `_iso_utc` (lines 29-35): an unparseable value gives "", a parsed instant
   * its `YYYY-MM-DDTHH:MM:SSZ` form, which reads back as the same instant
   * with the sub-second part dropped.
   */
  function IsoUtc(v: Value, pd: Pandas): (s: string)
    ensures s == "" <==> pd.toDatetime(v).None?
    ensures s != "" ==> IsoShape(s) && ParseIsoZ(s) == Some(WholeSeconds(pd.toDatetime(v).value))
  {
    match pd.toDatetime(v)
    case None => ""
    case Some(d) =>
      ParseFormatIsoZ(d);
      FormatIsoZ(d)
  }

  datatype LoadError = MissingColumns(missing: seq<string>) | Unreadable

  /** The members of `need` a column set lacks, in order. */
  function MissingFrom(need: seq<string>, columns: set<string>): (m: seq<string>)
    ensures forall c :: c in m <==> c in need && c !in columns
  {
    if need == [] then []
    else
      var n := |need| - 1;
      assert forall c :: c in need <==> c in need[..n] || c == need[n];
      MissingFrom(need[..n], columns) + (if need[n] in columns then [] else [need[n]])
  }

  /** Line 44: the required columns a table lacks, in the order of `need`. */
  function Missing(columns: set<string>): (m: seq<string>)
    ensures forall c :: c in m <==> c in Need && c !in columns
  {
    MissingFrom(Need, columns)
  }

  /** Line 49: the timestamp replaced by its normalised text. */
  function NormalizeTs(r: Row, pd: Pandas): Row {
    r["timestamp" := Text(IsoUtc(Cell(r, "timestamp"), pd))]
  }

  function NormalizeTimestamp(pd: Pandas): Row -> Row {
    (r: Row) => NormalizeTs(r, pd)
  }

  /** Line 50: `df["timestamp"] != ""`. */
  function HasTimestamp(r: Row): bool {
    Cell(r, "timestamp") != Text("")
  }

  /** Lines 51-52: `pd.to_numeric(..., errors="coerce")` on both coordinates. */
  function CoerceCoordinates(r: Row): Row {
    r["lat" := Coerce(Cell(r, "lat"))]["lon" := Coerce(Cell(r, "lon"))]
  }

  /** Line 53: `dropna(subset=["lat", "lon"])`. */
  function HasCoordinates(r: Row): bool {
    Cell(r, "lat") != Null && Cell(r, "lon") != Null
  }

  /** Line 54: the normalised timestamp parsed back to an instant, NaT when it does not parse. */
  function ParsedTs(v: Value): Value {
    match v
    case Text(s) => StampOf(ParseIsoZ(s))
    case _ => Null
  }

  function AddTs(r: Row): Row {
    r["_ts" := ParsedTs(Cell(r, "timestamp"))]
  }

  /** Line 55: `dropna(subset=["_ts"])`. */
  function HasTs(r: Row): bool {
    TsOf(r).Some?
  }

  /** Lines 48-56 on the rows of a table holding every required column. */
  function LoadRows(rows: seq<Row>, pd: Pandas): seq<Row> {
    var timed := Filter(Map(rows, NormalizeTimestamp(pd)), HasTimestamp);
    var located := Filter(Map(timed, CoerceCoordinates), HasCoordinates);
    var stamped := Filter(Map(located, AddTs), HasTs);
    SortRows(stamped)
  }

  /**
   * `_load_csv` as `run` sees it (lines 38-57 and 83-88): an unreadable file
   * or a missing required column is an error; otherwise the cleaned rows.
   */
  function LoadCsv(source: Option<Table>, pd: Pandas): (r: Result<seq<Row>, LoadError>)
    ensures source.None? ==> r == Err(Unreadable)
    ensures source.Some? && Missing(source.value.columns) != [] ==>
      r == Err(MissingColumns(Missing(source.value.columns)))
    ensures source.Some? && Missing(source.value.columns) == [] ==> r == Ok(LoadRows(source.value.rows, pd))
    ensures r.Ok? ==> AllPublishable(r.value)
    ensures r.Ok? ==> Sorted(r.value) && forall o :: o in r.value ==> WellLoaded(o)
  {
    match source
    case None => Err(Unreadable)
    case Some(t) =>
      var missing := Missing(t.columns);
      if missing != [] then Err(MissingColumns(missing))
      else
        LoadRowsCorrect(t.rows, pd);
        Ok(LoadRows(t.rows, pd))
  }

  /** Line 50's test on an input row: its timestamp parses. */
  predicate TimestampOk(r: Row, pd: Pandas) {
    IsoUtc(Cell(r, "timestamp"), pd) != ""
  }

  function TimestampKept(pd: Pandas): Row -> bool {
    (r: Row) => TimestampOk(r, pd)
  }

  /** Line 53's test on an input row: both coordinates convert to numbers. */
  predicate CoordinatesKept(r: Row) {
    ToFloat(Cell(r, "lat")).Some? && ToFloat(Cell(r, "lon")).Some?
  }

  /** Which input rows survive loading: a parseable timestamp and two numeric coordinates. */
  function Loadable(pd: Pandas): Row -> bool {
    (r: Row) => TimestampOk(r, pd) && CoordinatesKept(r)
  }

  /** An input row after lines 49-52. */
  function Located(r: Row, pd: Pandas): Row {
    CoerceCoordinates(NormalizeTs(r, pd))
  }

  function Normalized(pd: Pandas): Row -> Row {
    (r: Row) => Located(r, pd)
  }

  /** What loading makes of one surviving row (lines 49-54). */
  function Load(r: Row, pd: Pandas): Row {
    AddTs(Located(r, pd))
  }

  function LoadedRow(pd: Pandas): Row -> Row {
    (r: Row) => Load(r, pd)
  }

  lemma LocatedTimestamp(r: Row, pd: Pandas)
    ensures Cell(Located(r, pd), "timestamp") == Text(IsoUtc(Cell(r, "timestamp"), pd))
  {
    var nt := NormalizeTs(r, pd);
    assert Cell(nt, "timestamp") == Text(IsoUtc(Cell(r, "timestamp"), pd));
  }

  /** A loaded row's timestamp is the normalised text and `_ts` the instant it names. */
  lemma LoadedRowTime(r: Row, pd: Pandas)
    requires TimestampOk(r, pd)
    ensures var d := pd.toDatetime(Cell(r, "timestamp")).value;
      && Cell(Load(r, pd), "timestamp") == Text(FormatIsoZ(d))
      && TsOf(Load(r, pd)) == Some(EpochNanos(WholeSeconds(d)))
  {
    var d := pd.toDatetime(Cell(r, "timestamp")).value;
    var s := IsoUtc(Cell(r, "timestamp"), pd);
    assert s == FormatIsoZ(d);
    LocatedTimestamp(r, pd);
    ParseFormatIsoZ(d);
    assert ParsedTs(Text(s)) == Stamp(EpochNanos(WholeSeconds(d)));
  }

  /** A loaded row's coordinates are the numbers its input held. */
  lemma LoadedRowCoordinates(r: Row, pd: Pandas)
    requires CoordinatesKept(r)
    ensures Cell(Load(r, pd), "lat") == Num(ToFloat(Cell(r, "lat")).value)
    ensures Cell(Load(r, pd), "lon") == Num(ToFloat(Cell(r, "lon")).value)
  {
    assert Cell(NormalizeTs(r, pd), "lat") == Cell(r, "lat");
    assert Cell(NormalizeTs(r, pd), "lon") == Cell(r, "lon");
  }

  lemma MapMap<T>(s: seq<T>, f: T -> T, g: T -> T, h: T -> T)
    requires forall x :: h(x) == g(f(x))
    ensures Map(Map(s, f), g) == Map(s, h)
  {
  }

  lemma FilterAll<T>(s: seq<T>, keep: T -> bool)
    requires forall x :: x in s ==> keep(x)
    ensures Filter(s, keep) == s
  {
    if s != [] {
      FilterAll(s[..|s| - 1], keep);
      assert s == s[..|s| - 1] + [s[|s| - 1]];
    }
  }

  lemma TimedStage(rows: seq<Row>, pd: Pandas)
    ensures Filter(Map(rows, NormalizeTimestamp(pd)), HasTimestamp)
         == Map(Filter(rows, TimestampKept(pd)), NormalizeTimestamp(pd))
  {
    forall r ensures TimestampKept(pd)(r) == HasTimestamp(NormalizeTimestamp(pd)(r)) {
      var s := IsoUtc(Cell(r, "timestamp"), pd);
      assert Cell(NormalizeTs(r, pd), "timestamp") == Text(s);
      assert (Text(s) != Text("")) == (s != "");
    }
    FilterMap(rows, NormalizeTimestamp(pd), HasTimestamp, TimestampKept(pd));
  }

  lemma LocatedStage(timed: seq<Row>, pd: Pandas)
    ensures Filter(Map(Map(timed, NormalizeTimestamp(pd)), CoerceCoordinates), HasCoordinates)
         == Map(Filter(timed, CoordinatesKept), Normalized(pd))
  {
    MapMap(timed, NormalizeTimestamp(pd), CoerceCoordinates, Normalized(pd));
    forall r ensures CoordinatesKept(r) == HasCoordinates(Normalized(pd)(r)) {
      assert Cell(NormalizeTs(r, pd), "lat") == Cell(r, "lat");
      assert Cell(NormalizeTs(r, pd), "lon") == Cell(r, "lon");
    }
    FilterMap(timed, Normalized(pd), HasCoordinates, CoordinatesKept);
  }

  lemma StampedStage(located: seq<Row>, pd: Pandas)
    requires forall r :: r in located ==> TimestampKept(pd)(r)
    ensures Filter(Map(Map(located, Normalized(pd)), AddTs), HasTs) == Map(located, LoadedRow(pd))
  {
    MapMap(located, Normalized(pd), AddTs, LoadedRow(pd));
    forall o | o in Map(located, LoadedRow(pd)) ensures HasTs(o) {
      var i :| 0 <= i < |located| && Map(located, LoadedRow(pd))[i] == o;
      assert located[i] in located;
      LoadedRowTime(located[i], pd);
    }
    FilterAll(Map(located, LoadedRow(pd)), HasTs);
  }

  /**
   * Loading keeps exactly the loadable rows, transforms each, and sorts: the
   * NaT filter of line 55 drops nothing, since a normalised timestamp always
   * parses back.
   */
  lemma LoadRowsSelects(rows: seq<Row>, pd: Pandas)
    ensures LoadRows(rows, pd) == SortRows(Map(Filter(rows, Loadable(pd)), LoadedRow(pd)))
  {
    var f1 := Filter(rows, TimestampKept(pd));
    TimedStage(rows, pd);
    LocatedStage(f1, pd);
    FilterFilter(rows, TimestampKept(pd), CoordinatesKept, Loadable(pd));
    var f12 := Filter(rows, Loadable(pd));
    assert forall r :: r in f12 ==> TimestampKept(pd)(r);
    StampedStage(f12, pd);
  }

  /**
   * A row as `_load_csv` returns it (lines 49-55): a non-empty normalised
   * timestamp, the `_ts` it names, and numeric coordinates.
   */
  ghost predicate WellLoaded(r: Row) {
    && Cell(r, "timestamp").Text? && IsoShape(Cell(r, "timestamp").s)
    && TsOf(r).Some? && TsOf(r) == StampAsTs(ParseIsoZ(Cell(r, "timestamp").s))
    && Cell(r, "lat").Num? && Cell(r, "lon").Num?
  }

  lemma LoadedWell(r: Row, pd: Pandas)
    requires Loadable(pd)(r)
    ensures WellLoaded(Load(r, pd))
  {
    LoadedRowTime(r, pd);
    LoadedRowCoordinates(r, pd);
    ParseFormatIsoZ(pd.toDatetime(Cell(r, "timestamp")).value);
  }

  lemma ReferenceWell(rows: seq<Row>, pd: Pandas)
    ensures forall o :: o in Map(Filter(rows, Loadable(pd)), LoadedRow(pd)) ==> WellLoaded(o)
  {
    var kept := Filter(rows, Loadable(pd));
    var ref := Map(kept, LoadedRow(pd));
    forall o | o in ref ensures WellLoaded(o) {
      var i :| 0 <= i < |ref| && ref[i] == o;
      assert kept[i] in kept;
      LoadedWell(kept[i], pd);
    }
  }

  /**
   * What `_load_csv` promises: the rows are the loadable input rows, each
   * transformed and well loaded, sorted by (`_ts`, `facility_code`), with
   * rows of equal keys in their input order.
   */
  lemma LoadRowsCorrect(rows: seq<Row>, pd: Pandas)
    ensures var out := LoadRows(rows, pd);
      var ref := Map(Filter(rows, Loadable(pd)), LoadedRow(pd));
      && multiset(out) == multiset(ref)
      && Sorted(out)
      && (forall k :: Filter(out, HasKey(k)) == Filter(ref, HasKey(k)))
      && (forall r :: r in out ==> WellLoaded(r))
  {
    var ref := Map(Filter(rows, Loadable(pd)), LoadedRow(pd));
    LoadRowsSelects(rows, pd);
    SortRowsCorrect(ref);
    ReferenceWell(rows, pd);
    var out := LoadRows(rows, pd);
    forall r | r in out ensures WellLoaded(r) {
      assert r in multiset(ref);
    }
  }

  /** The `_ts` a parsed instant yields. */
  function StampAsTs(t: Option<DateTime>): Option<int> {
    match t
    case Some(d) => Some(EpochNanos(d))
    case None => None
  }

  /** The change-detection pair of lines 93-94. */
  datatype Reading = Reading(powerMw: real, co2Kg: real)

  /** `float(v) if pd.notna(v) else 0.0`; None when `float` raises. */
  function Measure(v: Value): (m: Option<real>)
    ensures v == Null ==> m == Some(0.0)
    ensures v.Num? ==> m == Some(v.x)
  {
    if v == Null then Some(0.0) else ToFloat(v)
  }

  function ReadingOf(r: Row): Option<Reading> {
    match (Measure(Cell(r, "power_mw")), Measure(Cell(r, "co2_kg")))
    case (Some(p), Some(c)) => Some(Reading(p, c))
    case _ => None
  }

  /** Line 92: `str(facility_code)`. */
  function FacilityKey(r: Row, pd: Pandas): string {
    Str(Cell(r, "facility_code"), pd)
  }

  /** `str(v) if pd.notna(v) else missing`. */
  function TextOr(v: Value, missing: string, pd: Pandas): string {
    if v == Null then missing else Str(v, pd)
  }

  /** The JSON message of lines 101-111. */
  datatype Message = Message(
    facilityId: string, facilityName: string, latitude: real, longitude: real,
    powerMw: real, co2Kg: real, state: string, fuelTech: string, timestamp: string)

  /** A row `run` can turn into a message: numeric coordinates, as `_load_csv` guarantees. */
  predicate Publishable(r: Row) {
    Cell(r, "lat").Num? && Cell(r, "lon").Num?
  }

  function MessageOf(r: Row, rd: Reading, pd: Pandas): (m: Message)
    requires Publishable(r)
    ensures m.facilityId == FacilityKey(r, pd)
    ensures m.latitude == Cell(r, "lat").x && m.longitude == Cell(r, "lon").x
    ensures Reading(m.powerMw, m.co2Kg) == rd
    ensures Cell(r, "facility_name") == Null ==> m.facilityName == "Unknown"
    ensures Cell(r, "region") == Null ==> m.state == ""
    ensures Cell(r, "fuel_tech") == Null ==> m.fuelTech == ""
    ensures Cell(r, "facility_name") != Null ==> m.facilityName == Str(Cell(r, "facility_name"), pd)
    ensures Cell(r, "region") != Null ==> m.state == Str(Cell(r, "region"), pd)
    ensures Cell(r, "fuel_tech") != Null ==> m.fuelTech == Str(Cell(r, "fuel_tech"), pd)
    ensures m.timestamp == Str(Cell(r, "timestamp"), pd)
  {
    Message(
      FacilityKey(r, pd), TextOr(Cell(r, "facility_name"), "Unknown", pd),
      Cell(r, "lat").x, Cell(r, "lon").x, rd.powerMw, rd.co2Kg,
      TextOr(Cell(r, "region"), "", pd), TextOr(Cell(r, "fuel_tech"), "", pd),
      Str(Cell(r, "timestamp"), pd))
  }

  /** Line 97: whether a reading repeats the last one sent for its facility. */
  predicate Unchanged(memory: map<string, Reading>, fid: string, rd: Reading) {
    fid in memory && memory[fid] == rd
  }

  /** The last-sent memory, the messages of a round, and whether a `float` conversion crashed it. */
  datatype RoundResult = RoundResult(memory: map<string, Reading>, messages: seq<Message>, crashed: bool)

  ghost predicate AllPublishable(rows: seq<Row>) {
    forall r :: r in rows ==> Publishable(r)
  }

  /** Lines 90-120: one pass over the loaded rows, starting from memory `mem`. */
  function Replay(mem: map<string, Reading>, rows: seq<Row>, pd: Pandas): RoundResult
    requires AllPublishable(rows)
  {
    if rows == [] then RoundResult(mem, [], false)
    else
      var n := |rows| - 1;
      var prev := Replay(mem, rows[..n], pd);
      if prev.crashed then prev
      else match ReadingOf(rows[n])
        case None => RoundResult(prev.memory, prev.messages, true)
        case Some(rd) =>
          var fid := FacilityKey(rows[n], pd);
          if Unchanged(prev.memory, fid, rd) then prev
          else RoundResult(prev.memory[fid := rd], prev.messages + [MessageOf(rows[n], rd, pd)], false)
  }

  /** The memory that results from recording each message's pair in order. */
  function Remember(mem: map<string, Reading>, msgs: seq<Message>): map<string, Reading> {
    if msgs == [] then mem
    else
      var m := msgs[|msgs| - 1];
      Remember(mem, msgs[..|msgs| - 1])[m.facilityId := Reading(m.powerMw, m.co2Kg)]
  }

  /** Line 119: the memory changes only by recording the messages sent, each to exactly its own pair. */
  lemma {:induction false} ReplayMemory(mem: map<string, Reading>, rows: seq<Row>, pd: Pandas)
    requires AllPublishable(rows)
    ensures Replay(mem, rows, pd).memory == Remember(mem, Replay(mem, rows, pd).messages)
  {
    if rows != [] {
      var n := |rows| - 1;
      ReplayMemory(mem, rows[..n], pd);
      var prev := Replay(mem, rows[..n], pd);
      var msgs := Replay(mem, rows, pd).messages;
      if msgs != prev.messages {
        assert msgs[..|msgs| - 1] == prev.messages;
      }
    }
  }

  /** Each message's pair differs from the memory that the messages before it leave. */
  predicate ChangesOnly(mem: map<string, Reading>, msgs: seq<Message>) {
    msgs == [] ||
      var m := msgs[|msgs| - 1];
      && ChangesOnly(mem, msgs[..|msgs| - 1])
      && !Unchanged(Remember(mem, msgs[..|msgs| - 1]), m.facilityId, Reading(m.powerMw, m.co2Kg))
  }

  /** Lines 97-99: no message repeats the pair last sent for its facility. */
  lemma {:induction false} ReplaySendsChanges(mem: map<string, Reading>, rows: seq<Row>, pd: Pandas)
    requires AllPublishable(rows)
    ensures ChangesOnly(mem, Replay(mem, rows, pd).messages)
  {
    if rows != [] {
      var n := |rows| - 1;
      ReplaySendsChanges(mem, rows[..n], pd);
      ReplayMemory(mem, rows[..n], pd);
      var prev := Replay(mem, rows[..n], pd).messages;
      var msgs := Replay(mem, rows, pd).messages;
      if msgs != prev {
        assert msgs[..|msgs| - 1] == prev;
      }
    }
  }

  /** The positions of the rows a replay sends, in order. */
  ghost function SentAt(mem: map<string, Reading>, rows: seq<Row>, pd: Pandas): seq<nat>
    requires AllPublishable(rows)
  {
    if rows == [] then []
    else
      var n := |rows| - 1;
      var prev := Replay(mem, rows[..n], pd);
      if Replay(mem, rows, pd).messages == prev.messages then SentAt(mem, rows[..n], pd)
      else SentAt(mem, rows[..n], pd) + [n]
  }

  /**
   * Messages follow table order (line 91): the k-th message is made from the
   * row at the k-th sent position, and those positions increase.
   */
  lemma {:induction false} ReplayInOrder(mem: map<string, Reading>, rows: seq<Row>, pd: Pandas)
    requires AllPublishable(rows)
    ensures var res, at := Replay(mem, rows, pd), SentAt(mem, rows, pd);
      && |at| == |res.messages|
      && StrictlyIncreasing(at)
      && forall k :: 0 <= k < |at| ==>
           && at[k] < |rows|
           && ReadingOf(rows[at[k]]).Some?
           && res.messages[k] == MessageOf(rows[at[k]], ReadingOf(rows[at[k]]).value, pd)
  {
    if rows != [] {
      var n := |rows| - 1;
      ReplayInOrder(mem, rows[..n], pd);
      var prev := Replay(mem, rows[..n], pd);
      var pat := SentAt(mem, rows[..n], pd);
      var at := SentAt(mem, rows, pd);
      var res := Replay(mem, rows, pd);
      forall k | 0 <= k < |pat| ensures pat[k] < n && rows[pat[k]] == rows[..n][pat[k]] { }
      if res.messages != prev.messages {
        assert at == pat + [n];
        assert res.messages == prev.messages + [res.messages[|res.messages| - 1]];
      }
    }
  }

  /**
   * On a sorted table (line 56) messages go out in (`_ts`, `facility_code`)
   * order: non-decreasing time, equal times by facility code.
   */
  lemma MessagesSorted(mem: map<string, Reading>, rows: seq<Row>, pd: Pandas)
    requires AllPublishable(rows) && Sorted(rows)
    ensures var at := SentAt(mem, rows, pd);
      forall k, l :: 0 <= k < l < |at| ==>
        at[k] < at[l] < |rows| && KeyLe(KeyOf(rows[at[k]]), KeyOf(rows[at[l]]))
  {
    ReplayInOrder(mem, rows, pd);
  }

  /** The instant a message's `timestamp` text names, if it parses. */
  function SentTime(m: Message): Option<int> {
    StampAsTs(ParseIsoZ(m.timestamp))
  }

  /**
   * Line 110 on loaded rows: each message carries its row's timestamp text,
   * which has the ISO `...Z` shape (line 18) and names the row's `_ts`.
   */
  lemma MessageTimes(mem: map<string, Reading>, rows: seq<Row>, pd: Pandas)
    requires AllPublishable(rows) && forall r :: r in rows ==> WellLoaded(r)
    ensures var res, at := Replay(mem, rows, pd), SentAt(mem, rows, pd);
      && |at| == |res.messages|
      && forall k :: 0 <= k < |at| ==>
           && at[k] < |rows|
           && IsoShape(res.messages[k].timestamp)
           && SentTime(res.messages[k]) == TsOf(rows[at[k]])
  {
    ReplayInOrder(mem, rows, pd);
    var at := SentAt(mem, rows, pd);
    forall k | 0 <= k < |at| ensures WellLoaded(rows[at[k]]) {
      assert rows[at[k]] in rows;
    }
  }

  /** Every message carries a parseable time, and no later message carries an earlier one. */
  ghost predicate TimesAscend(msgs: seq<Message>) {
    forall k, l :: 0 <= k < l < |msgs| ==> AscendsAt(msgs, k, l)
  }

  /** Messages `k` and `l` both carry a parseable time, the first not after the second. */
  ghost predicate AscendsAt(msgs: seq<Message>, k: int, l: int)
    requires 0 <= k < l < |msgs|
  {
    SentTime(msgs[k]).Some? && SentTime(msgs[l]).Some? && SentTime(msgs[k]).value <= SentTime(msgs[l]).value
  }

  /** Two loaded rows in key order are in `_ts` order. */
  lemma StampsInKeyOrder(a: Row, b: Row)
    requires WellLoaded(a) && WellLoaded(b) && KeyLe(KeyOf(a), KeyOf(b))
    ensures TsOf(a).value <= TsOf(b).value
  {
  }

  /** The times carried by messages `k` and `l` of a round over a loaded table. */
  lemma MessageTimesPair(mem: map<string, Reading>, rows: seq<Row>, pd: Pandas, k: nat, l: nat)
    requires AllPublishable(rows) && Sorted(rows) && forall r :: r in rows ==> WellLoaded(r)
    requires k < l < |Replay(mem, rows, pd).messages|
    ensures AscendsAt(Replay(mem, rows, pd).messages, k, l)
  {
    MessageTimes(mem, rows, pd);
    MessagesSorted(mem, rows, pd);
    var at := SentAt(mem, rows, pd);
    var a, b := rows[at[k]], rows[at[l]];
    assert a in rows && b in rows;
    StampsInKeyOrder(a, b);
  }

  /**
   * Lines 56 and 91-110 together: on a table `_load_csv` returns, the
   * timestamps the messages carry never go back in time.
   */
  lemma MessageTimesAscend(mem: map<string, Reading>, rows: seq<Row>, pd: Pandas)
    requires AllPublishable(rows) && Sorted(rows) && forall r :: r in rows ==> WellLoaded(r)
    ensures TimesAscend(Replay(mem, rows, pd).messages)
  {
    var msgs := Replay(mem, rows, pd).messages;
    forall k, l | 0 <= k < l < |msgs|
      ensures AscendsAt(msgs, k, l)
    {
      MessageTimesPair(mem, rows, pd, k, l);
    }
  }

  /** The reading of the last row of facility `fid`, if there is one. */
  function LastReading(rows: seq<Row>, fid: string, pd: Pandas): Option<Reading> {
    if rows == [] then None
    else if FacilityKey(rows[|rows| - 1], pd) == fid then ReadingOf(rows[|rows| - 1])
    else LastReading(rows[..|rows| - 1], fid, pd)
  }

  /**
   * `last_vals` after a round that did not crash: each facility that has
   * rows holds the reading of its last row, every other entry is as before.
   */
  lemma {:induction false} ReplayRemembersLast(mem: map<string, Reading>, rows: seq<Row>, pd: Pandas, fid: string)
    requires AllPublishable(rows)
    requires !Replay(mem, rows, pd).crashed
    ensures var memory := Replay(mem, rows, pd).memory;
      match LastReading(rows, fid, pd)
      case Some(rd) => fid in memory && memory[fid] == rd
      case None => (fid in memory <==> fid in mem) && (fid in mem ==> memory[fid] == mem[fid])
  {
    if rows != [] {
      var n := |rows| - 1;
      assert !Replay(mem, rows[..n], pd).crashed;
      ReplayRemembersLast(mem, rows[..n], pd, fid);
    }
  }

  /** A round crashes exactly when some row's power or CO2 value does not convert (lines 93-94). */
  lemma {:induction false} ReplayCrashes(mem: map<string, Reading>, rows: seq<Row>, pd: Pandas)
    requires AllPublishable(rows)
    ensures Replay(mem, rows, pd).crashed <==> exists r :: r in rows && ReadingOf(r).None?
  {
    if rows != [] {
      var n := |rows| - 1;
      ReplayCrashes(mem, rows[..n], pd);
      assert forall r :: r in rows <==> r in rows[..n] || r == rows[n];
    }
  }

  /** A round whose every reading equals the facility's remembered pair sends nothing and changes nothing. */
  lemma {:induction false} QuietReplay(mem: map<string, Reading>, rows: seq<Row>, pd: Pandas)
    requires AllPublishable(rows)
    requires forall r :: r in rows ==> ReadingOf(r).Some? && Unchanged(mem, FacilityKey(r, pd), ReadingOf(r).value)
    ensures Replay(mem, rows, pd) == RoundResult(mem, [], false)
  {
    if rows != [] {
      QuietReplay(mem, rows[..|rows| - 1], pd);
    }
  }

  /** Rows are readings of a facility that never change. */
  ghost predicate Steady(rows: seq<Row>, pd: Pandas) {
    forall i, j :: 0 <= i < |rows| && 0 <= j < |rows| && FacilityKey(rows[i], pd) == FacilityKey(rows[j], pd) ==>
      ReadingOf(rows[i]) == ReadingOf(rows[j])
  }

  lemma {:induction false} LastReadingIsReading(rows: seq<Row>, fid: string, pd: Pandas, i: nat)
    requires i < |rows| && FacilityKey(rows[i], pd) == fid && Steady(rows, pd)
    ensures LastReading(rows, fid, pd) == ReadingOf(rows[i])
  {
    var n := |rows| - 1;
    if FacilityKey(rows[n], pd) != fid {
      assert i < n;
      assert rows[..n][i] == rows[i];
      LastReadingIsReading(rows[..n], fid, pd, i);
    }
  }

  /**
   * `last_vals` persists across rounds (line 77): replaying again a table in
   * which each facility's reading never changes sends nothing the second time.
   */
  lemma SecondRoundQuiet(mem: map<string, Reading>, rows: seq<Row>, pd: Pandas)
    requires AllPublishable(rows) && Steady(rows, pd)
    requires !Replay(mem, rows, pd).crashed
    ensures var first := Replay(mem, rows, pd);
      Replay(first.memory, rows, pd) == RoundResult(first.memory, [], false)
  {
    var first := Replay(mem, rows, pd);
    ReplayCrashes(mem, rows, pd);
    forall r | r in rows
      ensures ReadingOf(r).Some? && Unchanged(first.memory, FacilityKey(r, pd), ReadingOf(r).value)
    {
      var i :| 0 <= i < |rows| && rows[i] == r;
      LastReadingIsReading(rows, FacilityKey(r, pd), pd, i);
      ReplayRemembersLast(mem, rows, pd, FacilityKey(r, pd));
    }
    QuietReplay(first.memory, rows, pd);
  }

  /** No message of `msgs` is for facility `fid`. */
  predicate SendsNothingFor(msgs: seq<Message>, fid: string) {
    forall m :: m in msgs ==> m.facilityId != fid
  }

  /**
   * Lines 96-119 seen from one facility: a round that sends nothing for
   * `fid` leaves its memory entry as it was, and every row of `fid` in it
   * carried exactly the remembered reading.
   */
  lemma {:induction false} SilentFacility(mem: map<string, Reading>, rows: seq<Row>, pd: Pandas, fid: string)
    requires AllPublishable(rows)
    requires !Replay(mem, rows, pd).crashed
    ensures var res := Replay(mem, rows, pd);
      SendsNothingFor(res.messages, fid) ==>
        && (fid in res.memory <==> fid in mem)
        && (fid in mem ==> res.memory[fid] == mem[fid])
        && forall r :: r in rows && FacilityKey(r, pd) == fid ==> fid in mem && ReadingOf(r) == Some(mem[fid])
  {
    if rows != [] {
      var n := |rows| - 1;
      var prev := Replay(mem, rows[..n], pd);
      SilentFacility(mem, rows[..n], pd, fid);
      var res := Replay(mem, rows, pd);
      if SendsNothingFor(res.messages, fid) {
        assert forall m :: m in prev.messages ==> m in res.messages;
        assert forall r :: r in rows ==> r in rows[..n] || r == rows[n];
      }
    }
  }

  /** A facility with two different readings in a table gets a message in every round over it that does not crash. */
  lemma ReplayResendsVarying(mem: map<string, Reading>, rows: seq<Row>, pd: Pandas, i: nat, j: nat)
    requires AllPublishable(rows) && !Replay(mem, rows, pd).crashed
    requires i < |rows| && j < |rows| && FacilityKey(rows[i], pd) == FacilityKey(rows[j], pd)
    requires ReadingOf(rows[i]) != ReadingOf(rows[j])
    ensures exists m :: m in Replay(mem, rows, pd).messages && m.facilityId == FacilityKey(rows[i], pd)
  {
    SilentFacility(mem, rows, pd, FacilityKey(rows[i], pd));
    assert rows[i] in rows && rows[j] in rows;
  }

  /**
   * Lines 77-119 over two rounds of the same table: the second round is
   * quiet exactly when no facility's reading varies within the table.
   */
  lemma SecondRoundQuietIffSteady(mem: map<string, Reading>, rows: seq<Row>, pd: Pandas)
    requires AllPublishable(rows)
    requires !Replay(mem, rows, pd).crashed
    ensures var first := Replay(mem, rows, pd);
      Replay(first.memory, rows, pd) == RoundResult(first.memory, [], false) <==> Steady(rows, pd)
  {
    var first := Replay(mem, rows, pd);
    ReplayCrashes(mem, rows, pd);
    ReplayCrashes(first.memory, rows, pd);
    if Steady(rows, pd) {
      SecondRoundQuiet(mem, rows, pd);
    } else {
      var i, j :| 0 <= i < |rows| && 0 <= j < |rows| && FacilityKey(rows[i], pd) == FacilityKey(rows[j], pd)
        && ReadingOf(rows[i]) != ReadingOf(rows[j]);
      ReplayResendsVarying(first.memory, rows, pd, i, j);
    }
  }

  /** What a round reports. */
  datatype RoundOutcome = Skipped(error: LoadError) | Sent(count: nat) | Crashed(sentBefore: nat)

  /** The publisher's state across rounds: `last_vals`, `round_idx`, and the messages handed to the broker. */
  class Publisher {
    const pd: Pandas
    var lastVals: map<string, Reading>
    var roundIdx: nat
    var outbox: seq<Message>
    var halted: bool

    /** Lines 77-79: empty memory, no rounds, nothing sent. */
    constructor(pd: Pandas)
      ensures this.pd == pd
      ensures lastVals == map[] && roundIdx == 0 && outbox == [] && !halted
    {
      this.pd := pd;
      lastVals := map[];
      roundIdx := 0;
      outbox := [];
      halted := false;
    }

    /**
     * One iteration of the `while True` loop (lines 82-123): a load error
     * skips the round with everything else unchanged; otherwise the rows are
     * replayed against `last_vals`, which the round leaves updated.
     */
    method PublishRound(source: Option<Table>) returns (outcome: RoundOutcome)
      requires !halted
      modifies this
      ensures roundIdx == old(roundIdx) + 1
      ensures RoundResult(lastVals, outbox, halted)
           == NextRound(RoundResult(old(lastVals), old(outbox), false), LoadCsv(source, pd), pd)
      ensures outcome == match LoadCsv(source, pd)
        case Err(e) => Skipped(e)
        case Ok(rows) =>
          var res := Replay(old(lastVals), rows, pd);
          if res.crashed then Crashed(|res.messages|) else Sent(|res.messages|)
    {
      roundIdx := roundIdx + 1;
      var loaded := LoadCsv(source, pd);
      if loaded.Err? {
        return Skipped(loaded.error);
      }
      outcome := PublishRows(loaded.value);
    }

    /** Lines 90-120: the per-row loop of one round over the loaded rows. */
    method PublishRows(rows: seq<Row>) returns (outcome: RoundOutcome)
      requires !halted && AllPublishable(rows)
      modifies this`lastVals, this`outbox, this`halted
      ensures var res := Replay(old(lastVals), rows, pd);
        && lastVals == res.memory
        && outbox == old(outbox) + res.messages
        && halted == res.crashed
        && outcome == (if res.crashed then Crashed(|res.messages|) else Sent(|res.messages|))
    {
      ghost var mem0 := lastVals;
      ghost var box0 := outbox;
      ghost var round: seq<Message> := [];
      var sent := 0;
      var i := 0;
      while i < |rows|
        invariant 0 <= i <= |rows|
        invariant !halted
        invariant outbox == box0 + round
        invariant Replay(mem0, rows[..i], pd) == RoundResult(lastVals, round, false)
        invariant sent == |round|
      {
        var r := rows[i];
        var reading := ReadingOf(r);
        ReplayStep(mem0, rows, i, pd);
        if reading.None? {
          halted := true;
          ReplayStaysCrashed(mem0, rows, pd, i + 1);
          return Crashed(sent);
        }
        var fid := FacilityKey(r, pd);
        var rd := reading.value;
        if !(fid in lastVals && lastVals[fid] == rd) {
          var msg := MessageOf(r, rd, pd);
          outbox := outbox + [msg];
          round := round + [msg];
          sent := sent + 1;
          lastVals := lastVals[fid := rd];
        }
        i := i + 1;
      }
      assert rows[..|rows|] == rows;
      return Sent(sent);
    }
  }

  /** One more row of a replay that has not crashed: lines 92-119 applied to row `i`. */
  lemma ReplayStep(mem: map<string, Reading>, rows: seq<Row>, i: nat, pd: Pandas)
    requires AllPublishable(rows) && i < |rows|
    requires !Replay(mem, rows[..i], pd).crashed
    ensures var prev := Replay(mem, rows[..i], pd);
      Replay(mem, rows[..i + 1], pd) ==
        match ReadingOf(rows[i])
        case None => RoundResult(prev.memory, prev.messages, true)
        case Some(rd) =>
          var fid := FacilityKey(rows[i], pd);
          if Unchanged(prev.memory, fid, rd) then prev
          else RoundResult(prev.memory[fid := rd], prev.messages + [MessageOf(rows[i], rd, pd)], false)
  {
    assert rows[..i + 1][..i] == rows[..i];
  }

  /** Once a replay has crashed, later rows change nothing. */
  lemma {:induction false} ReplayStaysCrashed(mem: map<string, Reading>, rows: seq<Row>, pd: Pandas, i: nat)
    requires AllPublishable(rows) && i <= |rows|
    requires Replay(mem, rows[..i], pd).crashed
    ensures Replay(mem, rows, pd) == Replay(mem, rows[..i], pd)
  {
    if i < |rows| {
      var n := |rows| - 1;
      assert rows[..n][..i] == rows[..i];
      ReplayStaysCrashed(mem, rows[..n], pd, i);
    } else {
      assert rows[..i] == rows;
    }
  }

  /** What `_load_csv` gives in each round, in order. */
  function Loads(sources: seq<Option<Table>>, pd: Pandas): (r: seq<Result<seq<Row>, LoadError>>)
    ensures |r| == |sources|
    ensures forall i :: 0 <= i < |sources| ==> r[i] == LoadCsv(sources[i], pd)
    ensures AllLoaded(r)
  {
    if sources == [] then []
    else Loads(sources[..|sources| - 1], pd) + [LoadCsv(sources[|sources| - 1], pd)]
  }

  /** Every successful load holds rows `run` can publish. */
  ghost predicate AllLoaded(loads: seq<Result<seq<Row>, LoadError>>) {
    forall i :: 0 <= i < |loads| && loads[i].Ok? ==> AllPublishable(loads[i].value)
  }

  lemma AllLoadedPrefix(loads: seq<Result<seq<Row>, LoadError>>, k: nat)
    requires AllLoaded(loads) && k <= |loads|
    ensures AllLoaded(loads[..k])
  {
    forall i | 0 <= i < k && loads[..k][i].Ok? ensures AllPublishable(loads[..k][i].value) {
      assert loads[..k][i] == loads[i];
    }
  }

  /**
   * The rounds of `run` (lines 80-120) over the successive load results,
   * from empty memory: a load error skips its round, and a crash ends the
   * loop with the messages sent so far.
   */
  function Rounds(loads: seq<Result<seq<Row>, LoadError>>, pd: Pandas): RoundResult
    requires AllLoaded(loads)
  {
    if loads == [] then RoundResult(map[], [], false)
    else
      var n := |loads| - 1;
      AllLoadedPrefix(loads, n);
      NextRound(Rounds(loads[..n], pd), loads[n], pd)
  }

  /** One more round after `prev`; nothing happens once the process has crashed. */
  function NextRound(prev: RoundResult, loaded: Result<seq<Row>, LoadError>, pd: Pandas): (r: RoundResult)
    requires loaded.Ok? ==> AllPublishable(loaded.value)
    ensures prev.crashed || loaded.Err? ==> r == prev
  {
    if prev.crashed then prev
    else match loaded
      case Err(_) => prev
      case Ok(rows) =>
        var res := Replay(prev.memory, rows, pd);
        RoundResult(res.memory, prev.messages + res.messages, res.crashed)
  }

  lemma {:induction false} RememberAppend(mem: map<string, Reading>, a: seq<Message>, b: seq<Message>)
    ensures Remember(mem, a + b) == Remember(Remember(mem, a), b)
  {
    if b != [] {
      var n := |b| - 1;
      assert (a + b)[..|a + b| - 1] == a + b[..n];
      RememberAppend(mem, a, b[..n]);
    } else {
      assert a + b == a;
    }
  }

  /**
   * `last_vals` lives outside the round loop (line 77): after any number of
   * rounds it holds, for each facility, the pair of the last message sent for it.
   */
  lemma {:induction false} RoundsRemember(loads: seq<Result<seq<Row>, LoadError>>, pd: Pandas)
    requires AllLoaded(loads)
    ensures Rounds(loads, pd).memory == Remember(map[], Rounds(loads, pd).messages)
  {
    if loads != [] {
      var n := |loads| - 1;
      AllLoadedPrefix(loads, n);
      var prev := Rounds(loads[..n], pd);
      RoundsRemember(loads[..n], pd);
      if !prev.crashed && loads[n].Ok? {
        ReplayMemory(prev.memory, loads[n].value, pd);
        RememberAppend(map[], prev.messages, Replay(prev.memory, loads[n].value, pd).messages);
      }
    }
  }

  lemma RoundsStep(loads: seq<Result<seq<Row>, LoadError>>, k: nat, pd: Pandas)
    requires AllLoaded(loads) && k < |loads|
    ensures AllLoaded(loads[..k]) && AllLoaded(loads[..k + 1])
    ensures Rounds(loads[..k + 1], pd) == NextRound(Rounds(loads[..k], pd), loads[k], pd)
  {
    AllLoadedPrefix(loads, k);
    AllLoadedPrefix(loads, k + 1);
    assert loads[..k + 1][..k] == loads[..k];
  }

  /** Rounds after a crash contribute nothing: the process has ended. */
  lemma {:induction false} RoundsStayCrashed(loads: seq<Result<seq<Row>, LoadError>>, pd: Pandas, k: nat)
    requires AllLoaded(loads) && k <= |loads|
    requires AllLoaded(loads[..k]) && Rounds(loads[..k], pd).crashed
    ensures Rounds(loads, pd) == Rounds(loads[..k], pd)
  {
    if k < |loads| {
      var n := |loads| - 1;
      assert loads[..n][..k] == loads[..k];
      AllLoadedPrefix(loads, n);
      RoundsStayCrashed(loads[..n], pd, k);
    } else {
      assert loads[..k] == loads;
    }
  }

  /** How the process ends. */
  datatype RunEnd = MissingCsv | Interrupted | Failed

  /** Lines 66-69 exit with status 1; an uncaught `float` error also exits with 1; Ctrl-C returns normally. */
  function ExitCode(e: RunEnd): int {
    match e
    case MissingCsv => 1
    case Failed => 1
    case Interrupted => 0
  }

  /**
   * `run` (lines 65-123): with no CSV it exits at once; otherwise it runs
   * rounds until one crashes or the given contents run out (the interrupt).
   */
  method Run(csvExists: bool, sources: seq<Option<Table>>, pd: Pandas) returns (end: RunEnd, sent: seq<Message>)
    ensures !csvExists ==> end == MissingCsv && sent == []
    ensures csvExists ==>
      var res := Rounds(Loads(sources, pd), pd);
      && sent == res.messages
      && end == (if res.crashed then Failed else Interrupted)
    ensures ExitCode(end) == (if csvExists && !Rounds(Loads(sources, pd), pd).crashed then 0 else 1)
  {
    if !csvExists {
      return MissingCsv, [];
    }
    var publisher := new Publisher(pd);
    ghost var loads := Loads(sources, pd);
    var k := 0;
    while k < |sources| && !publisher.halted
      invariant 0 <= k <= |sources|
      invariant publisher.pd == pd
      invariant AllLoaded(loads[..k])
      invariant Rounds(loads[..k], pd) == RoundResult(publisher.lastVals, publisher.outbox, publisher.halted)
    {
      RoundsStep(loads, k, pd);
      var _ := publisher.PublishRound(sources[k]);
      k := k + 1;
    }
    if publisher.halted {
      RoundsStayCrashed(loads, pd, k);
      return Failed, publisher.outbox;
    }
    assert loads[..k] == loads;
    return Interrupted, publisher.outbox;
  }

  /** A loaded row of facility F1 reading `p` MW and 500 kg CO2. */
  function Sample(p: real): Row {
    map["facility_code" := Text("F1"), "lat" := Num(1.0), "lon" := Num(2.0),
        "power_mw" := Num(p), "co2_kg" := Num(500.0)]
  }

  lemma SampleFacts(p: real, pd: Pandas)
    ensures Publishable(Sample(p))
    ensures FacilityKey(Sample(p), pd) == "F1"
    ensures ReadingOf(Sample(p)) == Some(Reading(p, 500.0))
  {
    assert Cell(Sample(p), "facility_code") == Text("F1");
    assert Cell(Sample(p), "power_mw") == Num(p) && Cell(Sample(p), "co2_kg") == Num(500.0);
  }

  /** The first two readings of the example: the repeat of (10, 500) leaves the first round state as it was. */
  lemma RepeatSkipped(pd: Pandas)
    ensures var first := RoundResult(map["F1" := Reading(10.0, 500.0)], [MessageOf(Sample(10.0), Reading(10.0, 500.0), pd)], false);
      && Replay(map[], [Sample(10.0)], pd) == first
      && Replay(map[], [Sample(10.0), Sample(10.0)], pd) == first
  {
    var rows := [Sample(10.0), Sample(10.0)];
    SampleFacts(10.0, pd);
    assert rows[..0] == [] && rows[..1] == [Sample(10.0)];
    ReplayStep(map[], rows, 0, pd);
    ReplayStep(map[], rows, 1, pd);
    assert rows[..2] == rows;
  }

  /** Lines 92-99 on one facility's readings (10, 500), (10, 500), (12, 500): the repeat is not sent. */
  lemma SuppressesRepeat(pd: Pandas)
    ensures var res := Replay(map[], [Sample(10.0), Sample(10.0), Sample(12.0)], pd);
      && |res.messages| == 2
      && res.messages[0].powerMw == 10.0 && res.messages[1].powerMw == 12.0
      && res.memory == map["F1" := Reading(12.0, 500.0)]
  {
    var rows := [Sample(10.0), Sample(10.0), Sample(12.0)];
    SampleFacts(12.0, pd);
    RepeatSkipped(pd);
    assert rows[..2] == [Sample(10.0), Sample(10.0)];
    ReplayStep(map[], rows, 2, pd);
    assert rows[..3] == rows;
  }
}
