/** The fuel-type colour assignment of the map legend (`make_color_map`). */
module Colors {

  /** `_PALETTE`: ten colours, the last one the grey used for unknown fuels. */
  const Palette: seq<string> := [
    "#4C78A8", "#F58518", "#54A24B", "#E45756", "#72B7B2",
    "#EECA3B", "#B279A2", "#FF9DA6", "#9D755D", "#BAB0AC"
  ]

  const UnknownFuel: string := "Unknown"
  const UnknownColor: string := "#BAB0AC"

  /** An empty fuel name is shown as "Unknown". */
  function Label(fuel: string): string {
    if fuel == "" then UnknownFuel else fuel
  }

  function Labels(fuels: seq<string>): (r: seq<string>)
    ensures |r| == |fuels|
    ensures forall i :: 0 <= i < |fuels| ==> r[i] == Label(fuels[i])
  {
    if fuels == [] then [] else Labels(fuels[..|fuels| - 1]) + [Label(fuels[|fuels| - 1])]
  }

  predicate Distinct(s: seq<string>) {
    forall i, j :: 0 <= i < j < |s| ==> s[i] != s[j]
  }

  /** `list(dict.fromkeys(s))`: each value once, in order of first occurrence. */
  function Unique(s: seq<string>): (u: seq<string>)
    ensures Distinct(u)
    ensures forall x :: x in u <==> x in s
  {
    if s == [] then []
    else
      var pre := Unique(s[..|s| - 1]);
      assert forall x :: x in s <==> x in s[..|s| - 1] || x == s[|s| - 1];
      if s[|s| - 1] in pre then pre else pre + [s[|s| - 1]]
  }

  /** Unique keeps first occurrences in order: a value seen earlier keeps its place when more values follow. */
  lemma {:induction false} UniquePrefix(s: seq<string>, t: seq<string>)
    ensures Unique(s) <= Unique(s + t)
  {
    if t != [] {
      var n := |t| - 1;
      assert (s + t)[..|s + t| - 1] == s + t[..n];
      UniquePrefix(s, t[..n]);
    } else {
      assert s + t == s;
    }
  }

  /** The colour of the i-th distinct label: `_PALETTE[i % len(_PALETTE)]`. */
  function PaletteColor(i: nat): string {
    Palette[i % 10]
  }

  /** `enumerate(uniq)`: each distinct label with its position. */
  function Indexed(u: seq<string>): (m: map<string, nat>)
    requires Distinct(u)
    ensures forall f :: f in m <==> f in u
    ensures forall i :: 0 <= i < |u| ==> u[i] in m && m[u[i]] == i
  {
    if u == [] then map[]
    else
      var n := |u| - 1;
      var pre := Indexed(u[..n]);
      var m := pre[u[n] := n];
      assert forall x :: x in m <==> x in u by {
        forall x ensures x in m <==> x in u {
          assert x in u <==> x in u[..n] || x == u[n];
        }
      }
      assert forall i :: 0 <= i < |u| ==> u[i] in m && m[u[i]] == i by {
        forall i | 0 <= i < |u| ensures u[i] in m && m[u[i]] == i {
          if i < n {
            assert u[..n][i] == u[i] && u[i] != u[n];
          }
        }
      }
      m
  }

  /** Each positioned label coloured from the palette by its position. */
  function Painted(position: map<string, nat>): (m: map<string, string>)
    ensures forall f :: f in m <==> f in position
    ensures forall f :: f in position ==> m[f] == PaletteColor(position[f])
  {
    map f | f in position :: PaletteColor(position[f])
  }

  /** The labels of a fuel list are the labels of its members. */
  lemma LabelsMembers(fuels: seq<string>)
    ensures forall f :: f in Labels(fuels) <==> f in (set x | x in fuels :: Label(x))
  {
    var labels := Labels(fuels);
    forall f | f in labels ensures f in (set x | x in fuels :: Label(x)) {
      var i :| 0 <= i < |labels| && labels[i] == f;
      assert fuels[i] in fuels;
    }
    forall x | x in fuels ensures Label(x) in labels {
      var i :| 0 <= i < |fuels| && fuels[i] == x;
      assert labels[i] == Label(x);
    }
  }

  /** The labels that get a palette colour are the labels of the fuel list. */
  lemma PaintedLabels(fuels: seq<string>)
    ensures forall f :: f in Painted(Indexed(Unique(Labels(fuels)))) <==> exists x :: x in fuels && f == Label(x)
  {
    LabelsMembers(fuels);
  }

  /**
   * Lines 52-55: every label of the fuel list, and "Unknown", gets a
   * colour, and "Unknown" is always grey.
   */
  function ColorMap(fuels: seq<string>): (m: map<string, string>)
    ensures m.Keys == (set f | f in fuels :: Label(f)) + {UnknownFuel}
    ensures "" !in m
    ensures m[UnknownFuel] == UnknownColor
  {
    PaintedLabels(fuels);
    Painted(Indexed(Unique(Labels(fuels))))[UnknownFuel := UnknownColor]
  }

  lemma PaintedAt(u: seq<string>, i: nat)
    requires Distinct(u) && i < |u|
    ensures u[i] in Painted(Indexed(u)) && Painted(Indexed(u))[u[i]] == PaletteColor(i)
  {
    assert u[i] in Indexed(u) && Indexed(u)[u[i]] == i;
  }

  /**
   * Distinct labels in order of first appearance are coloured by position,
   * cycling through the palette after ten; only "Unknown" is overridden.
   */
  lemma ColorMapByPosition(fuels: seq<string>)
    ensures var u := Unique(Labels(fuels));
      forall i :: 0 <= i < |u| && u[i] != UnknownFuel ==> ColorMap(fuels)[u[i]] == PaletteColor(i)
  {
    var u := Unique(Labels(fuels));
    forall i | 0 <= i < |u| && u[i] != UnknownFuel ensures ColorMap(fuels)[u[i]] == PaletteColor(i) {
      PaintedAt(u, i);
    }
  }
}
