/**
 The data behind the bar chart: `freqMap` counts each distinct raw cell string
 of the chosen column, and the count axis gets the domain `[0, max count]`.

 A JavaScript object's own properties are modelled as an association list in
 insertion order; the rule that moves integer-like keys to the front when
 `Object.keys` enumerates them is not modelled, so no contract here speaks of
 the order of the entries.
 */
module FrequencyTable {
  import opened Cells
  import opened Orientation

  datatype Entry = Entry(category: string, count: nat)

  /** `freqMap`, and equally `dataArray`, one entry per property. */
  type Table = seq<Entry>

  /** `dataArray.map(d => d.category)`: the band scale's domain. */
  function Categories(t: Table): (cs: seq<string>)
    ensures |cs| == |t|
    ensures forall i :: 0 <= i < |t| ==> cs[i] == t[i].category
  {
    if t == [] then [] else [t[0].category] + Categories(t[1..])
  }

  /** No category appears twice. */
  predicate Distinct(t: Table)
  {
    forall i, j :: 0 <= i < j < |t| ==> t[i].category != t[j].category
  }

  /** Every entry counts at least one row. */
  predicate Positive(t: Table)
  {
    forall i :: 0 <= i < |t| ==> t[i].count >= 1
  }

  /** `freqMap[cat] || 0`. */
  function CountOf(t: Table, cat: string): nat
  {
    if t == [] then 0
    else if t[0].category == cat then t[0].count
    else CountOf(t[1..], cat)
  }

  /** The sum of all counts. */
  function Total(t: Table): nat
  {
    if t == [] then 0 else t[0].count + Total(t[1..])
  }

  /** `freqMap[cat] = (freqMap[cat] || 0) + 1`. */
  function Bump(t: Table, cat: string): (r: Table)
    ensures Total(r) == Total(t) + 1
    ensures forall k :: CountOf(r, k) == CountOf(t, k) + (if k == cat then 1 else 0)
  {
    if t == [] then [Entry(cat, 1)]
    else if t[0].category == cat then [Entry(cat, t[0].count + 1)] + t[1..]
    else
      var r := [t[0]] + Bump(t[1..], cat);
      assert r[1..] == Bump(t[1..], cat);
      r
  }

  lemma TailKeepsShape(t: Table)
    requires t != []
    ensures Distinct(t) ==> Distinct(t[1..])
    ensures Positive(t) ==> Positive(t[1..])
    ensures Categories(t) == [t[0].category] + Categories(t[1..])
  {
    assert forall i :: 0 <= i < |t[1..]| ==> t[1..][i] == t[i + 1];
  }

  /** Counting a cell adds its category if it is new and keeps every other one. */
  lemma {:induction false} BumpCategories(t: Table, cat: string)
    ensures forall k :: k in Categories(Bump(t, cat)) <==> k in Categories(t) || k == cat
  {
    if t != [] {
      var r := Bump(t, cat);
      TailKeepsShape(t);
      TailKeepsShape(r);
      if t[0].category != cat {
        BumpCategories(t[1..], cat);
        assert r[1..] == Bump(t[1..], cat);
      } else {
        assert r[1..] == t[1..];
      }
    }
  }

  /** Counting a cell never creates a second entry for a category. */
  lemma {:induction false} BumpDistinct(t: Table, cat: string)
    requires Distinct(t)
    ensures Distinct(Bump(t, cat))
  {
    if t != [] {
      var r := Bump(t, cat);
      TailKeepsShape(t);
      if t[0].category != cat {
        BumpDistinct(t[1..], cat);
        BumpCategories(t[1..], cat);
        assert r[1..] == Bump(t[1..], cat);
        assert t[0].category !in Categories(t[1..]);
        assert t[0].category !in Categories(r[1..]);
        assert forall i :: 1 <= i < |r| ==> r[i] == r[1..][i - 1] && r[1..][i - 1].category == Categories(r[1..])[i - 1];
      } else {
        assert forall i :: 1 <= i < |r| ==> r[i] == t[i];
      }
    }
  }

  /** Counting a cell leaves every count positive. */
  lemma {:induction false} BumpPositive(t: Table, cat: string)
    requires Positive(t)
    ensures Positive(Bump(t, cat))
  {
    if t != [] {
      var r := Bump(t, cat);
      TailKeepsShape(t);
      if t[0].category != cat {
        BumpPositive(t[1..], cat);
        assert r[1..] == Bump(t[1..], cat);
        assert forall i :: 1 <= i < |r| ==> r[i] == r[1..][i - 1];
      } else {
        assert forall i :: 1 <= i < |r| ==> r[i] == t[i];
      }
    }
  }

  /** The `forEach` loop over the cells, in row order. */
  function Tally(cells: seq<string>): (t: Table)
    ensures Distinct(t)
    ensures Positive(t)
    ensures Total(t) == |cells|
    ensures forall k :: CountOf(t, k) == multiset(cells)[k]
    ensures forall k :: k in Categories(t) <==> k in cells
  {
    if cells == [] then []
    else
      var init := cells[..|cells| - 1];
      assert cells == init + [cells[|cells| - 1]];
      BumpCategories(Tally(init), cells[|cells| - 1]);
      BumpDistinct(Tally(init), cells[|cells| - 1]);
      BumpPositive(Tally(init), cells[|cells| - 1]);
      Bump(Tally(init), cells[|cells| - 1])
  }

  /** In a table without repeated categories an entry's count is the count looked up by its category. */
  lemma {:induction false} EntryIsLookup(t: Table, i: nat)
    requires Distinct(t) && i < |t|
    ensures CountOf(t, t[i].category) == t[i].count
  {
    if i > 0 {
      assert t[0].category != t[i].category;
      assert Distinct(t[1..]) by {
        forall a, b | 0 <= a < b < |t[1..]|
          ensures t[1..][a].category != t[1..][b].category
        {
          assert t[1..][a] == t[a + 1] && t[1..][b] == t[b + 1];
        }
      }
      EntryIsLookup(t[1..], i - 1);
    }
  }

  /** The cell strings `drawBarChart` counts, one per row; a missing cell counts as "undefined". */
  function ColumnKeys(data: Dataset, col: string): (cells: seq<string>)
    ensures |cells| == |data|
    ensures forall i :: 0 <= i < |data| ==> cells[i] == KeyOf(Lookup(data[i], col))
  {
    if data == [] then [] else [KeyOf(Lookup(data[0], col))] + ColumnKeys(data[1..], col)
  }

  /**
   The frequency table of a column: one entry per distinct cell string, each
   counting exactly the rows that hold that string, and together every row.
   */
  function FrequencyTableOf(data: Dataset, col: string): (t: Table)
    ensures Distinct(t)
    ensures forall k :: k in Categories(t) <==> k in ColumnKeys(data, col)
    ensures forall i :: 0 <= i < |t| ==> 1 <= t[i].count == multiset(ColumnKeys(data, col))[t[i].category]
    ensures Total(t) == |data|
    ensures |t| <= |data|
  {
    var t := Tally(ColumnKeys(data, col));
    forall i | 0 <= i < |t|
      ensures t[i].count == multiset(ColumnKeys(data, col))[t[i].category]
    {
      EntryIsLookup(t, i);
    }
    TotalBoundsLength(t);
    t
  }

  /** A table of positive counts has no more entries than its total. */
  lemma {:induction false} TotalBoundsLength(t: Table)
    requires Positive(t)
    ensures |t| <= Total(t)
  {
    if t != [] {
      assert Positive(t[1..]) by {
        forall i | 0 <= i < |t[1..]|
          ensures t[1..][i].count >= 1
        {
          assert t[1..][i] == t[i + 1];
        }
      }
      TotalBoundsLength(t[1..]);
    }
  }

  /** `d3.max(dataArray, d => d.count)`; `None` for an empty table, where d3 answers `undefined`. */
  function MaxCount(t: Table): (m: Option<nat>)
    ensures m.None? <==> t == []
    ensures m.Some? ==> forall i :: 0 <= i < |t| ==> t[i].count <= m.value
    ensures m.Some? ==> exists i :: 0 <= i < |t| && t[i].count == m.value
  {
    if t == [] then None
    else
      match MaxCount(t[1..])
      case None => Some(t[0].count)
      case Some(m) =>
        assert forall i :: 1 <= i < |t| ==> t[i] == t[1..][i - 1];
        if t[0].count < m then
          var w :| 0 <= w < |t[1..]| && t[1..][w].count == m;
          assert t[w + 1].count == m;
          Some(m)
        else Some(t[0].count)
  }

  /**
   The scales of the bar chart: the band scale over the categories and the
   linear count scale over `[0, countMax]`, each assigned to a screen axis by
   the orientation.
   */
  datatype BarLayout = BarLayout(
    table: Table,
    bandAxis: ScreenAxis,
    bandDomain: seq<string>,
    countAxis: ScreenAxis,
    countMax: Option<nat>)

  /** `drawBarChart` without the drawing. */
  function BarChart(data: Dataset, col: string, orientation: string): (b: BarLayout)
    ensures b.table == FrequencyTableOf(data, col)
    ensures b.bandDomain == Categories(b.table)
    ensures b.bandAxis != b.countAxis
    ensures b.bandAxis == XAxis <==> orientation == Vertical
    ensures b.countMax.None? <==> data == []
    ensures b.countMax.Some? ==> forall i :: 0 <= i < |b.table| ==> 0 <= b.table[i].count <= b.countMax.value
    ensures b.countMax.Some? ==> exists i :: 0 <= i < |b.table| && b.table[i].count == b.countMax.value
  {
    var t := FrequencyTableOf(data, col);
    BarLayout(t, BandAxis(orientation), Categories(t), CountAxis(orientation), MaxCount(t))
  }
}
