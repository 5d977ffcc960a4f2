/**
 The `.filter(d => !isNaN(d))` step shared by the histogram and the scatter
 plot, and the `d3.min` / `d3.max` / `d3.extent` reductions that give their
 numeric axes a domain.
 */
module Filtering {
  import opened Cells

  /** Keeps the defined values, in their original order. */
  function Defined<T>(xs: seq<Option<T>>): (r: seq<T>)
    ensures |r| <= |xs|
  {
    if xs == [] then []
    else
      var init := xs[..|xs| - 1];
      assert xs == init + [xs[|xs| - 1]];
      match xs[|xs| - 1]
      case None => Defined(init)
      case Some(v) => Defined(init) + [v]
  }

  predicate Increasing(s: seq<nat>)
  {
    forall j, k :: 0 <= j < k < |s| ==> s[j] < s[k]
  }

  /**
   The positions `Defined` keeps: ascending, every one holds the value kept at
   the same place, and no defined position is missed.
   */
  function KeptPositions<T>(xs: seq<Option<T>>): (r: seq<nat>)
    ensures Increasing(r)
    ensures forall j :: 0 <= j < |r| ==> r[j] < |xs| && xs[r[j]].Some?
    ensures forall i :: 0 <= i < |xs| && xs[i].Some? ==> i in r
  {
    if xs == [] then []
    else
      var n := |xs| - 1;
      var rest := KeptPositions(xs[..n]);
      assert forall j :: 0 <= j < |rest| ==> xs[rest[j]] == xs[..n][rest[j]];
      if xs[n].Some? then rest + [n] else rest
  }

  lemma {:induction false} DefinedAtKeptPositions<T>(xs: seq<Option<T>>)
    ensures |Defined(xs)| == |KeptPositions(xs)|
    ensures forall j :: 0 <= j < |KeptPositions(xs)| ==> xs[KeptPositions(xs)[j]] == Some(Defined(xs)[j])
  {
    if xs != [] {
      var n := |xs| - 1;
      var init := xs[..n];
      DefinedAtKeptPositions(init);
      var d, k := Defined(init), KeptPositions(init);
      assert xs == init + [xs[n]];
      assert forall j :: 0 <= j < |k| ==> xs[k[j]] == init[k[j]] == Some(d[j]);
      if xs[n].Some? {
        assert Defined(xs) == d + [xs[n].value];
        assert KeptPositions(xs) == k + [n];
      } else {
        assert Defined(xs) == d;
        assert KeptPositions(xs) == k;
      }
    }
  }

  /** Nothing is kept when nothing is defined. */
  lemma {:induction false} NothingDefined<T>(xs: seq<Option<T>>)
    requires forall i :: 0 <= i < |xs| ==> xs[i].None?
    ensures Defined(xs) == []
  {
    if xs != [] {
      NothingDefined(xs[..|xs| - 1]);
    }
  }

  /**
   `[d3.min(vs), d3.max(vs)]`, which is also `d3.extent(vs)`; `None` when `vs`
   is empty, where d3 answers `undefined`.
   */
  function Extent(vs: seq<real>): (e: Option<(real, real)>)
    ensures e.None? <==> vs == []
    ensures e.Some? ==> e.value.0 in vs && e.value.1 in vs
    ensures e.Some? ==> forall v :: v in vs ==> e.value.0 <= v <= e.value.1
  {
    if vs == [] then None
    else
      var last := vs[|vs| - 1];
      assert vs == vs[..|vs| - 1] + [last];
      match Extent(vs[..|vs| - 1])
      case None => Some((last, last))
      case Some(bounds) =>
        var lo := if last < bounds.0 then last else bounds.0;
        var hi := if bounds.1 < last then last else bounds.1;
        Some((lo, hi))
  }
}
