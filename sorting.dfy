/**
 * The producer's row order: `sort_values(["_ts", "facility_code"],
 * kind="stable")` (src/mqtt_publisher_loop.py, line 56). The loaded `_ts`
 * column holds timestamps and `facility_code` holds strings or numbers as
 * `read_csv` infers them; pandas never compares values of different kinds
 * there. The model extends the order to all values so that it is total:
 * numbers, then strings by code point, then timestamps, missing values last.
 */
module Sorting {
  import opened Frame
  import opened Seqs

  /** Lexicographic order on strings, by code point (Python's `<=` on `str`). */
  predicate LexLe(a: string, b: string)
    decreases |a|
  {
    a == [] || (b != [] && (a[0] < b[0] || (a[0] == b[0] && LexLe(a[1..], b[1..]))))
  }

  lemma {:induction false} LexRefl(a: string)
    ensures LexLe(a, a)
    decreases |a|
  {
    if a != [] {
      LexRefl(a[1..]);
    }
  }

  lemma {:induction false} LexTotal(a: string, b: string)
    ensures LexLe(a, b) || LexLe(b, a)
    decreases |a|
  {
    if a != [] && b != [] && a[0] == b[0] {
      LexTotal(a[1..], b[1..]);
    }
  }

  lemma {:induction false} LexAntisym(a: string, b: string)
    requires LexLe(a, b) && LexLe(b, a)
    ensures a == b
    decreases |a|
  {
    if a != [] && b != [] {
      LexAntisym(a[1..], b[1..]);
      assert a == [a[0]] + a[1..] && b == [b[0]] + b[1..];
    }
  }

  lemma {:induction false} LexTrans(a: string, b: string, c: string)
    requires LexLe(a, b) && LexLe(b, c)
    ensures LexLe(a, c)
    decreases |a|
  {
    if a != [] && b != [] && c != [] && a[0] == b[0] && b[0] == c[0] {
      LexTrans(a[1..], b[1..], c[1..]);
    }
  }

  /** Position of a value's kind in a mixed column's order; missing values sort last. */
  function Rank(v: Value): nat {
    match v
    case Num(_) => 0
    case Text(_) => 1
    case Stamp(_) => 2
    case Null => 3
  }

  predicate ValueLe(a: Value, b: Value) {
    if Rank(a) != Rank(b) then Rank(a) < Rank(b)
    else match (a, b)
      case (Num(x), Num(y)) => x <= y
      case (Text(s), Text(t)) => LexLe(s, t)
      case (Stamp(m), Stamp(n)) => m <= n
      case _ => true
  }

  /** `ValueLe` is a total order. */
  lemma ValueOrder(a: Value, b: Value, c: Value)
    ensures ValueLe(a, a)
    ensures ValueLe(a, b) || ValueLe(b, a)
    ensures ValueLe(a, b) && ValueLe(b, a) ==> a == b
    ensures ValueLe(a, b) && ValueLe(b, c) ==> ValueLe(a, c)
  {
    if a.Text? {
      LexRefl(a.s);
      if b.Text? {
        LexTotal(a.s, b.s);
        if LexLe(a.s, b.s) && LexLe(b.s, a.s) {
          LexAntisym(a.s, b.s);
        }
        if c.Text? && LexLe(a.s, b.s) && LexLe(b.s, c.s) {
          LexTrans(a.s, b.s, c.s);
        }
      }
    }
  }

  /** The sort key of a producer row. */
  datatype SortKey = SortKey(ts: Value, code: Value)

  function KeyOf(r: Row): SortKey {
    SortKey(Cell(r, "_ts"), Cell(r, "facility_code"))
  }

  /** Ascending by `_ts`, then by `facility_code`. */
  predicate KeyLe(a: SortKey, b: SortKey) {
    if a.ts == b.ts then ValueLe(a.code, b.code) else ValueLe(a.ts, b.ts)
  }

  /** `KeyLe` is a total order on keys. */
  lemma KeyOrder(a: SortKey, b: SortKey, c: SortKey)
    ensures KeyLe(a, a)
    ensures KeyLe(a, b) || KeyLe(b, a)
    ensures KeyLe(a, b) && KeyLe(b, a) ==> a == b
    ensures KeyLe(a, b) && KeyLe(b, c) ==> KeyLe(a, c)
  {
    ValueOrder(a.ts, b.ts, c.ts);
    ValueOrder(a.code, b.code, c.code);
    ValueOrder(b.ts, a.ts, c.ts);
    ValueOrder(b.ts, c.ts, a.ts);
    ValueOrder(a.ts, c.ts, b.ts);
  }

  lemma KeyRefl(a: SortKey)
    ensures KeyLe(a, a)
  {
    ValueOrder(a.code, a.code, a.code);
  }

  ghost predicate Sorted(s: seq<Row>) {
    forall i, j :: 0 <= i < j < |s| ==> KeyLe(KeyOf(s[i]), KeyOf(s[j]))
  }

  /** Inserts `x` after every element whose key is not greater than its own. */
  function Insert(s: seq<Row>, x: Row): seq<Row> {
    if s == [] then [x]
    else if KeyLe(KeyOf(s[|s| - 1]), KeyOf(x)) then s + [x]
    else Insert(s[..|s| - 1], x) + [s[|s| - 1]]
  }

  /** Stable sort by key: each row is inserted after the rows already placed with an equal key. */
  function SortRows(s: seq<Row>): seq<Row> {
    if s == [] then [] else Insert(SortRows(s[..|s| - 1]), s[|s| - 1])
  }

  lemma {:induction false} InsertPermutes(s: seq<Row>, x: Row)
    ensures multiset(Insert(s, x)) == multiset(s) + multiset{x}
  {
    if s != [] && !KeyLe(KeyOf(s[|s| - 1]), KeyOf(x)) {
      var n := |s| - 1;
      InsertPermutes(s[..n], x);
      assert s == s[..n] + [s[n]];
    }
  }

  lemma {:induction false} InsertSorted(s: seq<Row>, x: Row)
    requires Sorted(s)
    ensures Sorted(Insert(s, x))
  {
    if s != [] {
      var n := |s| - 1;
      var last := s[n];
      if KeyLe(KeyOf(last), KeyOf(x)) {
        forall i | 0 <= i < n ensures KeyLe(KeyOf(s[i]), KeyOf(x)) {
          KeyOrder(KeyOf(s[i]), KeyOf(last), KeyOf(x));
        }
      } else {
        KeyOrder(KeyOf(last), KeyOf(x), KeyOf(x));
        InsertSorted(s[..n], x);
        InsertPermutes(s[..n], x);
        var ins := Insert(s[..n], x);
        forall y | y in ins ensures KeyLe(KeyOf(y), KeyOf(last)) {
          assert y in multiset(ins);
          if y != x {
            assert y in multiset(s[..n]);
            var i :| 0 <= i < n && s[..n][i] == y;
          }
        }
        var r := ins + [last];
        forall i, j | 0 <= i < j < |r| ensures KeyLe(KeyOf(r[i]), KeyOf(r[j])) {
          if j == |r| - 1 {
            assert r[i] in ins;
          }
        }
      }
    }
  }

  /** The rows of `s` with key `k`. */
  function HasKey(k: SortKey): Row -> bool {
    (r: Row) => KeyOf(r) == k
  }

  /** Appending a row of another key commutes with the row of key `k` appended after. */
  lemma StableStep(ins: seq<Row>, pre: seq<Row>, last: Row, x: Row, k: SortKey)
    requires KeyOf(last) != KeyOf(x)
    requires Filter(ins, HasKey(k)) == Filter(pre, HasKey(k)) + (if KeyOf(x) == k then [x] else [])
    ensures Filter(ins + [last], HasKey(k)) == Filter(pre + [last], HasKey(k)) + (if KeyOf(x) == k then [x] else [])
  {
    var keep := HasKey(k);
    FilterAppend(ins, [last], keep);
    FilterAppend(pre, [last], keep);
    assert [last][..0] == [];
    var fl := Filter([last], keep);
    var fx := if keep(x) then [x] else [];
    assert fl == [] || fx == [];
  }

  lemma {:induction false} InsertStable(s: seq<Row>, x: Row, k: SortKey)
    ensures Filter(Insert(s, x), HasKey(k)) == Filter(s, HasKey(k)) + (if KeyOf(x) == k then [x] else [])
  {
    var keep := HasKey(k);
    if s == [] {
      assert Filter([x], keep) == Filter([], keep) + (if keep(x) then [x] else []);
    } else {
      var n := |s| - 1;
      if KeyLe(KeyOf(s[n]), KeyOf(x)) {
        assert (s + [x])[..|s|] == s;
      } else {
        KeyRefl(KeyOf(x));
        InsertStable(s[..n], x, k);
        assert s == s[..n] + [s[n]];
        StableStep(Insert(s[..n], x), s[..n], s[n], x, k);
      }
    }
  }

  lemma {:induction false} SortRowsSorted(s: seq<Row>)
    ensures Sorted(SortRows(s))
  {
    if s != [] {
      var n := |s| - 1;
      SortRowsSorted(s[..n]);
      InsertSorted(SortRows(s[..n]), s[n]);
    }
  }

  lemma {:induction false} SortRowsPermutes(s: seq<Row>)
    ensures multiset(SortRows(s)) == multiset(s)
  {
    if s != [] {
      var n := |s| - 1;
      SortRowsPermutes(s[..n]);
      InsertPermutes(SortRows(s[..n]), s[n]);
      assert s == s[..n] + [s[n]];
      calc {
        multiset(SortRows(s));
        multiset(Insert(SortRows(s[..n]), s[n]));
        multiset(SortRows(s[..n])) + multiset{s[n]};
        multiset(s[..n]) + multiset{s[n]};
        multiset(s[..n] + [s[n]]);
      }
    }
  }

  lemma {:induction false} SortRowsStable(s: seq<Row>, k: SortKey)
    ensures Filter(SortRows(s), HasKey(k)) == Filter(s, HasKey(k))
  {
    if s != [] {
      var n := |s| - 1;
      SortRowsStable(s[..n], k);
      InsertStable(SortRows(s[..n]), s[n], k);
    }
  }

  /** The sort reorders rows only: the result is sorted, a permutation, and stable on equal keys. */
  lemma SortRowsCorrect(s: seq<Row>)
    ensures Sorted(SortRows(s))
    ensures multiset(SortRows(s)) == multiset(s)
    ensures forall k :: Filter(SortRows(s), HasKey(k)) == Filter(s, HasKey(k))
  {
    SortRowsSorted(s);
    SortRowsPermutes(s);
    forall k ensures Filter(SortRows(s), HasKey(k)) == Filter(s, HasKey(k)) {
      SortRowsStable(s, k);
    }
  }
}
