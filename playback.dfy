/**
 * Progressive playback in the map app (src/map_app_streamlit.py, lines
 * 169-255): the cursor `show_upto_ts` walks through business time five
 * minutes per tick, the window keeps rows at or before it, the latest row
 * per facility is chosen from the window, and three KPIs summarise that
 * latest set.
 */
module Playback {
  import opened Wrappers
  import opened Calendar
  import opened Frame
  import opened Seqs
  import opened Harmonize

  /** `PLAYBACK_DELTA`: five minutes, in nanoseconds. */
  const PlaybackDelta: int := 5 * 60 * NanosPerSecond

  function FacilityOf(r: Row): Value { Cell(r, "facility_id") }

  /** The smaller of two optional instants, NaT skipped (pandas `min` skips NaT). */
  function MinOpt(a: Option<int>, b: Option<int>): Option<int> {
    match (a, b)
    case (Some(x), Some(y)) => Some(if x <= y then x else y)
    case (None, _) => b
    case (_, None) => a
  }

  function MaxOpt(a: Option<int>, b: Option<int>): Option<int> {
    match (a, b)
    case (Some(x), Some(y)) => Some(if x >= y then x else y)
    case (None, _) => b
    case (_, None) => a
  }

  /** `df["_ts"].min()`: the earliest parsed instant, or NaT when there is none. */
  function MinTs(rows: seq<Row>): (m: Option<int>)
    ensures m.None? <==> forall r :: r in rows ==> TsOf(r).None?
    ensures m.Some? ==> exists r :: r in rows && TsOf(r) == m
    ensures m.Some? ==> forall r :: r in rows && TsOf(r).Some? ==> m.value <= TsOf(r).value
  {
    if rows == [] then None
    else
      assert forall r :: r in rows <==> r in rows[..|rows| - 1] || r == rows[|rows| - 1];
      MinOpt(MinTs(rows[..|rows| - 1]), TsOf(rows[|rows| - 1]))
  }

  /** `df["_ts"].max()`: the latest parsed instant, or NaT when there is none. */
  function MaxTs(rows: seq<Row>): (m: Option<int>)
    ensures m.None? <==> forall r :: r in rows ==> TsOf(r).None?
    ensures m.Some? ==> exists r :: r in rows && TsOf(r) == m
    ensures m.Some? ==> forall r :: r in rows && TsOf(r).Some? ==> TsOf(r).value <= m.value
  {
    if rows == [] then None
    else
      assert forall r :: r in rows <==> r in rows[..|rows| - 1] || r == rows[|rows| - 1];
      MaxOpt(MaxTs(rows[..|rows| - 1]), TsOf(rows[|rows| - 1]))
  }

  /** Both extremes exist together, and the earliest is not after the latest. */
  lemma MinNotAfterMax(rows: seq<Row>)
    ensures MinTs(rows).Some? <==> MaxTs(rows).Some?
    ensures MinTs(rows).Some? ==> MinTs(rows).value <= MaxTs(rows).value
  {
  }

  /** Line 227: a missing (None or NaT) cursor starts at the earliest instant. */
  function InitCursor(cursor: Option<int>, minTs: Option<int>): (c: Option<int>)
    ensures cursor.Some? ==> c == cursor
    ensures cursor.None? ==> c == minTs
  {
    if cursor.None? then minTs else cursor
  }

  /** Whether a playing tick moves the cursor: `play and show_upto_ts < max_ts` (NaT compares false). */
  predicate Advances(cursor: Option<int>, maxTs: Option<int>, play: bool) {
    play && cursor.Some? && maxTs.Some? && cursor.value < maxTs.value
  }

  /**
   * Lines 230-234: a playing cursor below the latest instant moves five
   * minutes forward, never past the latest instant; otherwise it stays.
   */
  function AdvanceCursor(cursor: Option<int>, maxTs: Option<int>, play: bool): (c: Option<int>)
    ensures cursor.Some? ==> c.Some? && cursor.value <= c.value
    ensures cursor.Some? && maxTs.Some? && cursor.value <= maxTs.value ==> c.value <= maxTs.value
    ensures Advances(cursor, maxTs, play) ==> cursor.value < c.value
    ensures !Advances(cursor, maxTs, play) ==> c == cursor
  {
    if Advances(cursor, maxTs, play) then
      Some(if maxTs.value <= cursor.value + PlaybackDelta then maxTs.value else cursor.value + PlaybackDelta)
    else cursor
  }

  /** An advancing tick moves exactly five minutes unless that would pass the latest instant. */
  lemma AdvanceStep(cursor: int, maxTs: int)
    requires cursor < maxTs
    ensures var c := AdvanceCursor(Some(cursor), Some(maxTs), true).value;
      c == cursor + PlaybackDelta || (c == maxTs && maxTs - cursor < PlaybackDelta)
  {
  }

  /** The cursor after `n` playing ticks over a fixed table. */
  function Ticks(cursor: Option<int>, maxTs: Option<int>, n: nat): Option<int> {
    if n == 0 then cursor else AdvanceCursor(Ticks(cursor, maxTs, n - 1), maxTs, true)
  }

  /**
   * Playback ends: starting at or below the latest instant, enough ticks to
   * cover the remaining span bring the cursor exactly to the latest instant,
   * where it then stays.
   */
  lemma {:induction false} TicksReachEnd(cursor: int, maxTs: int, n: nat)
    requires cursor <= maxTs
    requires maxTs - cursor <= n * PlaybackDelta
    ensures Ticks(Some(cursor), Some(maxTs), n) == Some(maxTs)
  {
    if n > 0 {
      assert n * PlaybackDelta == (n - 1) * PlaybackDelta + PlaybackDelta;
      if maxTs - cursor <= (n - 1) * PlaybackDelta {
        TicksReachEnd(cursor, maxTs, n - 1);
      } else {
        TicksProgress(cursor, maxTs, n - 1);
      }
    }
  }

  /** Before reaching the end, each tick gains exactly five minutes. */
  lemma {:induction false} TicksProgress(cursor: int, maxTs: int, n: nat)
    requires cursor + n * PlaybackDelta <= maxTs
    ensures Ticks(Some(cursor), Some(maxTs), n) == Some(cursor + n * PlaybackDelta)
  {
    if n > 0 {
      assert n * PlaybackDelta == (n - 1) * PlaybackDelta + PlaybackDelta;
      TicksProgress(cursor, maxTs, n - 1);
    }
  }

  /** Whether row `r` is at or before the cursor: `_ts <= show_upto_ts`, false for NaT on either side. */
  predicate InWindow(r: Row, cursor: Option<int>) {
    cursor.Some? && TsOf(r).Some? && TsOf(r).value <= cursor.value
  }

  /** Line 237: the rows at or before the cursor, in table order. */
  function Window(rows: seq<Row>, cursor: Option<int>): (w: seq<Row>)
    ensures forall r :: r in w <==> r in rows && InWindow(r, cursor)
    ensures forall r :: r in w ==> TsOf(r).Some?
    ensures cursor.None? ==> w == []
  {
    var keep := (r: Row) => InWindow(r, cursor);
    var w := Filter(rows, keep);
    assert cursor.None? ==> w == [] by {
      if cursor.None? {
        FilterNone(rows, keep);
      }
    }
    w
  }

  /** Used by `Window`: a filter that keeps nothing is empty. */
  lemma {:induction false} FilterNone<T>(s: seq<T>, keep: T -> bool)
    requires forall x :: x in s ==> !keep(x)
    ensures Filter(s, keep) == []
  {
    if s != [] {
      FilterNone(s[..|s| - 1], keep);
    }
  }

  /** Index of the entry for facility `f` in a latest set, if any. */
  function FindFacility(latest: seq<Row>, f: Value): (j: Option<nat>)
    ensures j.Some? ==> j.value < |latest| && FacilityOf(latest[j.value]) == f
    ensures j.None? ==> forall l :: l in latest ==> FacilityOf(l) != f
  {
    if latest == [] then None
    else if FacilityOf(latest[0]) == f then Some(0)
    else match FindFacility(latest[1..], f)
      case Some(j) => Some(j + 1)
      case None => None
  }

  /** Whether row `b` is at least as late as row `a` (an unparsed `a` loses). */
  predicate NotEarlier(a: Row, b: Row) {
    TsOf(b).Some? && (TsOf(a).None? || TsOf(a).value <= TsOf(b).value)
  }

  /** One row folded into the latest set: rows without a facility id are ignored (groupby drops NaN keys). */
  function Step(latest: seq<Row>, r: Row): seq<Row> {
    if FacilityOf(r) == Null then latest
    else match FindFacility(latest, FacilityOf(r))
      case None => latest + [r]
      case Some(j) => if NotEarlier(latest[j], r) then latest[j := r] else latest
  }

  /** Line 239: `sort_values("_ts").groupby("facility_id").tail(1)`, as a left fold. */
  function Latest(rows: seq<Row>): seq<Row> {
    if rows == [] then [] else Step(Latest(rows[..|rows| - 1]), rows[|rows| - 1])
  }

  predicate Stamped(rows: seq<Row>) {
    forall r :: r in rows ==> TsOf(r).Some?
  }

  /** At most one row per facility id. */
  ghost predicate DistinctFacilities(latest: seq<Row>) {
    forall i, j :: 0 <= i < j < |latest| ==> FacilityOf(latest[i]) != FacilityOf(latest[j])
  }

  /** Every chosen row is an input row with a facility id. */
  ghost predicate DrawnFrom(latest: seq<Row>, rows: seq<Row>) {
    forall l :: l in latest ==> l in rows && FacilityOf(l) != Null
  }

  /** Every facility of the input is represented. */
  ghost predicate Covers(latest: seq<Row>, rows: seq<Row>) {
    forall r :: r in rows && FacilityOf(r) != Null ==> exists l :: l in latest && FacilityOf(l) == FacilityOf(r)
  }

  /** Each chosen row is not earlier than any input row of its facility. */
  ghost predicate Maximal(latest: seq<Row>, rows: seq<Row>) {
    forall l, r :: l in latest && r in rows && FacilityOf(r) == FacilityOf(l) ==> NotEarlier(r, l)
  }

  /**
   * `latest` is a latest-per-facility set of `rows`: one row per facility id,
   * each a row of `rows` with an id, every facility of `rows` represented,
   * and each chosen row carrying its facility's maximal `_ts`.
   */
  ghost predicate LatestOf(latest: seq<Row>, rows: seq<Row>) {
    DistinctFacilities(latest) && DrawnFrom(latest, rows) && Covers(latest, rows) && Maximal(latest, rows)
  }

  lemma NewDistinct(latest: seq<Row>, r: Row)
    requires DistinctFacilities(latest)
    requires forall l :: l in latest ==> FacilityOf(l) != FacilityOf(r)
    ensures DistinctFacilities(latest + [r])
  {
    var s := latest + [r];
    forall i, j | 0 <= i < j < |s| ensures FacilityOf(s[i]) != FacilityOf(s[j]) {
      assert s[i] == latest[i] && latest[i] in latest;
    }
  }

  lemma NewDrawn(latest: seq<Row>, rows: seq<Row>, r: Row)
    requires DrawnFrom(latest, rows) && FacilityOf(r) != Null
    ensures DrawnFrom(latest + [r], rows + [r])
  {
  }

  lemma NewCovers(latest: seq<Row>, rows: seq<Row>, r: Row)
    requires Covers(latest, rows)
    ensures Covers(latest + [r], rows + [r])
  {
    forall x | x in rows + [r] && FacilityOf(x) != Null
      ensures exists l :: l in latest + [r] && FacilityOf(l) == FacilityOf(x)
    {
      if x != r {
        assert x in rows;
        var w :| w in latest && FacilityOf(w) == FacilityOf(x);
        assert w in latest + [r];
      } else {
        assert r in latest + [r];
      }
    }
  }

  lemma NewMaximal(latest: seq<Row>, rows: seq<Row>, r: Row)
    requires Maximal(latest, rows) && Covers(latest, rows)
    requires forall l :: l in latest ==> FacilityOf(l) != FacilityOf(r)
    requires TsOf(r).Some? && FacilityOf(r) != Null
    ensures Maximal(latest + [r], rows + [r])
  {
    forall l, x | l in latest + [r] && x in rows + [r] && FacilityOf(x) == FacilityOf(l)
      ensures NotEarlier(x, l)
    {
      if l != r && x != r {
        assert l in latest && x in rows;
      }
    }
  }

  lemma ReplaceDistinct(latest: seq<Row>, r: Row, j: nat)
    requires DistinctFacilities(latest)
    requires j < |latest| && FacilityOf(latest[j]) == FacilityOf(r)
    ensures DistinctFacilities(latest[j := r])
  {
    var s := latest[j := r];
    assert forall k :: 0 <= k < |s| ==> FacilityOf(s[k]) == FacilityOf(latest[k]);
  }

  lemma ReplaceDrawn(latest: seq<Row>, rows: seq<Row>, r: Row, j: nat)
    requires DrawnFrom(latest, rows) && FacilityOf(r) != Null && j < |latest|
    ensures DrawnFrom(latest[j := r], rows + [r])
  {
    var s := latest[j := r];
    forall l | l in s ensures l in rows + [r] && FacilityOf(l) != Null {
      var k :| 0 <= k < |s| && s[k] == l;
      if k != j {
        assert latest[k] in latest;
      }
    }
  }

  lemma ReplaceCovers(latest: seq<Row>, rows: seq<Row>, r: Row, j: nat)
    requires Covers(latest, rows)
    requires j < |latest| && FacilityOf(latest[j]) == FacilityOf(r)
    ensures Covers(latest[j := r], rows + [r])
  {
    var s := latest[j := r];
    forall x | x in rows + [r] && FacilityOf(x) != Null
      ensures exists l :: l in s && FacilityOf(l) == FacilityOf(x)
    {
      if x == r {
        assert s[j] == r;
      } else {
        assert x in rows;
        var w :| w in latest && FacilityOf(w) == FacilityOf(x);
        var k :| 0 <= k < |latest| && latest[k] == w;
        assert s[k] in s;
        assert FacilityOf(s[k]) == FacilityOf(w);
      }
    }
  }

  lemma ReplaceMaximal(latest: seq<Row>, rows: seq<Row>, r: Row, j: nat)
    requires Maximal(latest, rows) && DistinctFacilities(latest)
    requires j < |latest| && FacilityOf(latest[j]) == FacilityOf(r)
    requires NotEarlier(latest[j], r)
    ensures Maximal(latest[j := r], rows + [r])
  {
    var s := latest[j := r];
    forall l, x | l in s && x in rows + [r] && FacilityOf(x) == FacilityOf(l)
      ensures NotEarlier(x, l)
    {
      var k :| 0 <= k < |s| && s[k] == l;
      if k == j {
        if x != r {
          assert x in rows && latest[j] in latest;
          assert NotEarlier(x, latest[j]);
        }
      } else {
        assert l == latest[k] && l in latest;
        assert FacilityOf(latest[k]) != FacilityOf(latest[j]) by {
          if k < j {} else {}
        }
        assert x in rows;
      }
    }
  }

  /** In a set with distinct facilities, a facility has one position. */
  lemma OnlyRowOf(latest: seq<Row>, k: nat, j: nat)
    requires DistinctFacilities(latest)
    requires k < |latest| && j < |latest| && FacilityOf(latest[k]) == FacilityOf(latest[j])
    ensures k == j
  {
  }

  /** Folding in a row earlier than its facility's chosen row changes nothing. */
  lemma StepKeepOld(latest: seq<Row>, rows: seq<Row>, r: Row, j: nat)
    requires Stamped(rows + [r]) && LatestOf(latest, rows)
    requires j < |latest| && FacilityOf(latest[j]) == FacilityOf(r) != Null
    requires !NotEarlier(latest[j], r)
    ensures LatestOf(latest, rows + [r])
  {
    var all := rows + [r];
    assert forall x :: x in all <==> x in rows || x == r;
    assert latest[j] in latest;
    forall l, x | l in latest && x in all && FacilityOf(x) == FacilityOf(l)
      ensures NotEarlier(x, l)
    {
      if x == r {
        var k :| 0 <= k < |latest| && latest[k] == l;
        OnlyRowOf(latest, k, j);
      }
    }
  }

  lemma StepKeeps(latest: seq<Row>, rows: seq<Row>, r: Row)
    requires Stamped(rows + [r])
    requires LatestOf(latest, rows)
    ensures LatestOf(Step(latest, r), rows + [r])
  {
    var all := rows + [r];
    assert forall x :: x in all <==> x in rows || x == r;
    if FacilityOf(r) != Null {
      match FindFacility(latest, FacilityOf(r))
      case None =>
        NewDistinct(latest, r);
        NewDrawn(latest, rows, r);
        NewCovers(latest, rows, r);
        NewMaximal(latest, rows, r);
      case Some(j) =>
        if NotEarlier(latest[j], r) {
          ReplaceDistinct(latest, r, j);
          ReplaceDrawn(latest, rows, r, j);
          ReplaceCovers(latest, rows, r, j);
          ReplaceMaximal(latest, rows, r, j);
        } else {
          StepKeepOld(latest, rows, r, j);
        }
    }
  }

  /** The fold computes a latest-per-facility set of its input. */
  lemma {:induction false} LatestIsLatest(rows: seq<Row>)
    requires Stamped(rows)
    ensures LatestOf(Latest(rows), rows)
  {
    if rows != [] {
      var n := |rows| - 1;
      assert rows == rows[..n] + [rows[n]];
      LatestIsLatest(rows[..n]);
      StepKeeps(Latest(rows[..n]), rows[..n], rows[n]);
    }
  }

  /** The facility ids present in a set of rows (`nunique` ignores NaN). */
  function Ids(rows: seq<Row>): set<Value> {
    set r | r in rows && FacilityOf(r) != Null :: FacilityOf(r)
  }

  /** Line 254's count equals the size of a latest set, one row per facility. */
  lemma {:induction false} IdsOfDistinct(latest: seq<Row>)
    requires forall l :: l in latest ==> FacilityOf(l) != Null
    requires forall i, j :: 0 <= i < j < |latest| ==> FacilityOf(latest[i]) != FacilityOf(latest[j])
    ensures |Ids(latest)| == |latest|
  {
    if latest != [] {
      var n := |latest| - 1;
      var pre := latest[..n];
      IdsOfDistinct(pre);
      assert Ids(latest) == Ids(pre) + {FacilityOf(latest[n])} by {
        assert forall r :: r in latest <==> r in pre || r == latest[n];
      }
      assert FacilityOf(latest[n]) !in Ids(pre) by {
        forall r | r in pre ensures FacilityOf(r) != FacilityOf(latest[n]) {
          var k :| 0 <= k < n && pre[k] == r;
        }
      }
    }
  }

  /** `fillna(0)` on one cell: a number counts as itself, anything missing as 0. */
  function NumOrZero(v: Value): real {
    match v
    case Num(x) => x
    case _ => 0.0
  }

  /** `df[c].fillna(0).sum()`. */
  function SumColumn(rows: seq<Row>, c: string): real {
    if rows == [] then 0.0 else SumColumn(rows[..|rows| - 1], c) + NumOrZero(Cell(rows[|rows| - 1], c))
  }

  lemma {:induction false} SumColumnAppend(a: seq<Row>, b: seq<Row>, c: string)
    ensures SumColumn(a + b, c) == SumColumn(a, c) + SumColumn(b, c)
  {
    if b == [] {
      assert a + b == a;
    } else {
      var n := |b| - 1;
      assert (a + b)[..|a + b| - 1] == a + b[..n];
      SumColumnAppend(a, b[..n], c);
    }
  }

  /** The totals do not depend on the order of the latest set. */
  lemma {:induction false} SumColumnPermutation(a: seq<Row>, b: seq<Row>, c: string)
    requires multiset(a) == multiset(b)
    ensures SumColumn(a, c) == SumColumn(b, c)
  {
    if a != [] {
      var n := |a| - 1;
      var x := a[n];
      assert x in multiset(b);
      var k :| 0 <= k < |b| && b[k] == x;
      var rest := b[..k] + b[k + 1..];
      assert b == b[..k] + [x] + b[k + 1..];
      assert a == a[..n] + [x];
      assert multiset(a) == multiset(a[..n]) + multiset{x};
      assert multiset(b) == multiset(b[..k]) + multiset{x} + multiset(b[k + 1..]);
      assert multiset(rest) == multiset(b[..k]) + multiset(b[k + 1..]);
      assert multiset(a[..n]) == multiset(a) - multiset{x};
      assert multiset(rest) == multiset(b) - multiset{x};
      SumColumnPermutation(a[..n], rest, c);
      SumColumnAppend(b[..k] + [x], b[k + 1..], c);
      SumColumnAppend(b[..k], [x], c);
      SumColumnAppend(b[..k], b[k + 1..], c);
    }
  }

  /** The rows whose column `c` holds a number. */
  function HoldsNumber(c: string): Row -> bool {
    (r: Row) => Cell(r, c).Num?
  }

  /** Missing values add nothing: the total equals the total over the rows holding a number. */
  lemma {:induction false} SumColumnSkipsMissing(rows: seq<Row>, c: string)
    ensures SumColumn(rows, c) == SumColumn(Filter(rows, HoldsNumber(c)), c)
  {
    if rows != [] {
      var n := |rows| - 1;
      var keep := HoldsNumber(c);
      var last := rows[n];
      SumColumnSkipsMissing(rows[..n], c);
      var f := Filter(rows[..n], keep);
      var g := Filter(rows, keep);
      if keep(last) {
        assert g == f + [last];
        assert g[..|g| - 1] == f;
      } else {
        assert g == f;
        assert NumOrZero(Cell(last, c)) == 0.0;
      }
    }
  }

  datatype Kpis = Kpis(facilities: nat, totalPowerMw: real, totalEmissionsTonnes: real)

  /** Lines 253-255: facility count, total power and total emissions of the latest set. */
  function ComputeKpis(latest: seq<Row>): (k: Kpis)
    ensures latest == [] ==> k == Kpis(0, 0.0, 0.0)
    ensures k.facilities <= |latest|
    ensures k.totalPowerMw == SumColumn(latest, "power_mw")
    ensures k.totalEmissionsTonnes == SumColumn(latest, "emissions_tonnes")
  {
    IdsBound(latest);
    if latest == [] then Kpis(0, 0.0, 0.0)
    else Kpis(|Ids(latest)|, SumColumn(latest, "power_mw"), SumColumn(latest, "emissions_tonnes"))
  }

  lemma {:induction false} IdsBound(rows: seq<Row>)
    ensures |Ids(rows)| <= |rows|
  {
    if rows != [] {
      var n := |rows| - 1;
      IdsBound(rows[..n]);
      assert Ids(rows) <= Ids(rows[..n]) + {FacilityOf(rows[n])} by {
        assert forall r :: r in rows ==> r in rows[..n] || r == rows[n];
      }
      assert |Ids(rows[..n]) + {FacilityOf(rows[n])}| <= |Ids(rows[..n])| + 1;
      SubsetCard(Ids(rows), Ids(rows[..n]) + {FacilityOf(rows[n])});
    }
  }

  lemma SubsetCard<T>(a: set<T>, b: set<T>)
    requires a <= b
    ensures |a| <= |b|
  {
    assert b == a + (b - a);
  }

  /** On a latest set the facility KPI is exactly the number of rows shown. */
  lemma KpisOfLatest(rows: seq<Row>)
    requires Stamped(rows)
    ensures ComputeKpis(Latest(rows)).facilities == |Latest(rows)|
    ensures ComputeKpis(Latest(rows)).facilities == |Ids(rows)|
  {
    var l := Latest(rows);
    LatestIsLatest(rows);
    IdsOfDistinct(l);
    assert Ids(l) == Ids(rows) by {
      forall v | v in Ids(rows) ensures v in Ids(l) {
        var r :| r in rows && FacilityOf(r) != Null && FacilityOf(r) == v;
        var w :| w in l && FacilityOf(w) == FacilityOf(r);
      }
    }
  }

  /** What one rerun shows once data is loaded. */
  datatype View =
    | Waiting
    | Shown(window: seq<Row>, latest: seq<Row>, kpis: Kpis, lastUpdate: Option<int>, rerun: bool)

  /**
   * Lines 237-256 and 291-292 for a cursor already advanced: the window at
   * the cursor, one latest row per facility of that window, a facility KPI
   * counting the window's facilities, power and emissions totals summed
   * over the latest set, a last update not after the cursor, and a rerun
   * exactly while playback can still advance.
   */
  function ViewAt(rows: seq<Row>, cursor: Option<int>, play: bool): (v: View)
    ensures v.Shown? && v.window == Window(rows, cursor)
    ensures LatestOf(v.latest, v.window)
    ensures v.kpis == ComputeKpis(v.latest)
    ensures v.kpis.facilities == |Ids(v.window)| == |v.latest|
    ensures v.lastUpdate == MaxTs(v.window)
    ensures v.lastUpdate.Some? ==> cursor.Some? && v.lastUpdate.value <= cursor.value
    ensures v.rerun <==> Advances(cursor, MaxTs(rows), play)
  {
    var w := Window(rows, cursor);
    LatestIsLatest(w);
    KpisOfLatest(w);
    var latest := Latest(w);
    Shown(w, latest, ComputeKpis(latest), MaxTs(w), Advances(cursor, MaxTs(rows), play))
  }

  /** The data a reload installs: nothing for an empty read, else the harmonized table (line 205). */
  function Loaded(raw: Table, pd: Pandas): (t: Table)
    ensures IsEmpty(raw) ==> IsEmpty(t)
    ensures !IsEmpty(raw) ==> t == Harmonize.Harmonize(raw, pd)
  {
    if IsEmpty(raw) then Table({}, []) else Harmonize.Harmonize(raw, pd)
  }

  /** Line 197: whether a rerun reloads the data file. */
  predicate ReloadDue(mtime: real, paused: bool, lastMtime: real) {
    !paused && mtime != lastMtime
  }

  /** The app's `st.session_state` entries that carry data between reruns. */
  class Session {
    var dataMtime: real
    var dfAll: Table
    var showUptoTs: Option<int>

    /** Lines 169-176: no data, an impossible mtime, no cursor. */
    constructor()
      ensures dataMtime == -1.0 && dfAll == Table({}, []) && showUptoTs == None
    {
      dataMtime := -1.0;
      dfAll := Table({}, []);
      showUptoTs := None;
    }

    /** Lines 189-191: forget the mtime so the next rerun reloads; the cursor is kept. */
    method ManualRefresh()
      modifies this
      ensures dataMtime == -1.0
      ensures dfAll == old(dfAll) && showUptoTs == old(showUptoTs)
      ensures forall mt: real :: mt >= 0.0 ==> ReloadDue(mt, false, dataMtime)
    {
      dataMtime := -1.0;
    }

    /**
     * Lines 196-206: when not paused and the file's mtime differs from the
     * one last loaded, replace the data by the harmonized read; the cursor
     * survives the reload.
     */
    method Reload(mtime: real, paused: bool, raw: Table, pd: Pandas)
      modifies this
      ensures ReloadDue(mtime, paused, old(dataMtime)) ==> dfAll == Loaded(raw, pd) && dataMtime == mtime
      ensures !ReloadDue(mtime, paused, old(dataMtime)) ==> dfAll == old(dfAll) && dataMtime == old(dataMtime)
      ensures showUptoTs == old(showUptoTs)
    {
      if !paused && mtime != dataMtime {
        dfAll := Loaded(raw, pd);
        dataMtime := mtime;
      }
    }

    /**
     * Lines 213-255 and 291-292: with no data the page waits and nothing
     * changes; otherwise the cursor is initialised and advanced, and the
     * view shows the window at the new cursor.
     */
    method Tick(play: bool) returns (v: View)
      modifies this
      ensures dfAll == old(dfAll) && dataMtime == old(dataMtime)
      ensures IsEmpty(dfAll) ==> v == Waiting && showUptoTs == old(showUptoTs)
      ensures !IsEmpty(dfAll) ==>
        && showUptoTs == AdvanceCursor(InitCursor(old(showUptoTs), MinTs(dfAll.rows)), MaxTs(dfAll.rows), play)
        && v == ViewAt(dfAll.rows, showUptoTs, play)
    {
      if IsEmpty(dfAll) {
        return Waiting;
      }
      var minTs := MinTs(dfAll.rows);
      var maxTs := MaxTs(dfAll.rows);
      if showUptoTs.None? {
        showUptoTs := minTs;
      }
      showUptoTs := AdvanceCursor(showUptoTs, maxTs, play);
      v := ViewAt(dfAll.rows, showUptoTs, play);
    }
  }
}
