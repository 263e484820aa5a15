/** The plot builders of guitools.js: the equal-axes range `getAxesEqual`
    and the triangle markers and edges `getTrianglePlots`. A plot
    descriptor keeps its name, its points (the descriptor's x, y and z
    arrays read column by column), its draw mode and its colour. */
module Plots {
  import opened Vectors

  datatype Mode = MarkersAndLines | Lines

  datatype Plot = Plot(name: string, points: seq<Vec3>, mode: Mode, color: string)

  /** The three axis lines `getAxesEqual` returns, under keys x, y and z. */
  datatype Axes = Axes(x: Plot, y: Plot, z: Plot)

  const Black := "#000000"

  /** `PLOT_COLORS["C" + i]`. */
  function PlotColor(i: nat): string
    requires i < 6
  {
    ["#0066ff", "#ff9933", "#33cc33", "#cc00ff", "#ff3300", "#996633"][i]
  }

  /** `[lo, hi]` is the smallest range that holds 0 and the first three
      components of every vector of `vs`: it holds all of them, and each
      bound is 0 or one of them. */
  ghost predicate IsAxisRange(vs: seq<Vec3>, lo: real, hi: real)
  {
    lo <= 0.0 <= hi &&
    (forall a, b :: 0 <= a < |vs| && 0 <= b < 3 ==> lo <= Comp(vs[a], b) <= hi) &&
    (lo == 0.0 || exists a, b :: 0 <= a < |vs| && 0 <= b < 3 && lo == Comp(vs[a], b)) &&
    (hi == 0.0 || exists a, b :: 0 <= a < |vs| && 0 <= b < 3 && hi == Comp(vs[a], b))
  }

  /** The range of the components visited so far by the nested loops: all of
      rows `a < i`, and the columns `b < j` of row `i`. */
  ghost predicate RangeSoFar(vs: seq<Vec3>, i: nat, j: nat, lo: real, hi: real)
  {
    lo <= 0.0 <= hi &&
    (forall a, b :: 0 <= a < |vs| && 0 <= b < 3 && (a < i || (a == i && b < j)) ==> lo <= Comp(vs[a], b) <= hi) &&
    (lo == 0.0 || exists a, b :: 0 <= a < |vs| && 0 <= b < 3 && (a < i || (a == i && b < j)) && lo == Comp(vs[a], b)) &&
    (hi == 0.0 || exists a, b :: 0 <= a < |vs| && 0 <= b < 3 && (a < i || (a == i && b < j)) && hi == Comp(vs[a], b))
  }

  /** The range is determined by the vectors: `IsAxisRange` names exactly
      `[min(0, components), max(0, components)]`. */
  lemma AxisRangeUnique(vs: seq<Vec3>, lo: real, hi: real, lo': real, hi': real)
    requires IsAxisRange(vs, lo, hi) && IsAxisRange(vs, lo', hi')
    ensures lo == lo' && hi == hi'
  {
  }

  /** An axis line along axis `k` from `lo` to `hi`, zero on the other axes. */
  ghost predicate IsAxisLine(pl: Plot, name: string, k: nat, lo: real, hi: real)
    requires k < 3
  {
    pl.name == name && pl.mode == Lines && pl.color == Black &&
    |pl.points| == 2 &&
    forall e :: 0 <= e < 3 ==>
      Comp(pl.points[0], e) == (if e == k then lo else 0.0) &&
      Comp(pl.points[1], e) == (if e == k then hi else 0.0)
  }

  /** `getAxesEqual(vs)`: three black axis lines, each spanning the range
      of all components of `vs` widened to hold the origin. */
  method GetAxesEqual(vs: seq<Vec3>) returns (axes: Axes)
    ensures exists lo, hi ::
              && IsAxisRange(vs, lo, hi)
              && IsAxisLine(axes.x, "xaxis", 0, lo, hi)
              && IsAxisLine(axes.y, "yaxis", 1, lo, hi)
              && IsAxisLine(axes.z, "zaxis", 2, lo, hi)
    ensures vs == [] ==> axes.x.points == [Vec3(0.0, 0.0, 0.0), Vec3(0.0, 0.0, 0.0)]
  {
    var minval, maxval := 0.0, 0.0;
    for i := 0 to |vs|
      invariant RangeSoFar(vs, i, 0, minval, maxval)
    {
      for j := 0 to 3
        invariant RangeSoFar(vs, i, j, minval, maxval)
      {
        if Comp(vs[i], j) < minval { minval := Comp(vs[i], j); }
        if Comp(vs[i], j) > maxval { maxval := Comp(vs[i], j); }
      }
    }
    axes := Axes(
      Plot("xaxis", [Vec3(minval, 0.0, 0.0), Vec3(maxval, 0.0, 0.0)], Lines, Black),
      Plot("yaxis", [Vec3(0.0, minval, 0.0), Vec3(0.0, maxval, 0.0)], Lines, Black),
      Plot("zaxis", [Vec3(0.0, 0.0, minval), Vec3(0.0, 0.0, maxval)], Lines, Black));
    assert IsAxisRange(vs, minval, maxval);
    assert IsAxisLine(axes.x, "xaxis", 0, minval, maxval);
    assert IsAxisLine(axes.y, "yaxis", 1, minval, maxval);
    assert IsAxisLine(axes.z, "zaxis", 2, minval, maxval);
  }

  /** `getTrianglePlots(a, b, c)`: first one marker per vertex, named a, b
      and c in the colours C0, C1 and C2, then the edges ab, bc and ca, edge
      `i` joining vertex `i` to vertex `(i + 1) % 3`. */
  method GetTrianglePlots(a: Vec3, b: Vec3, c: Vec3) returns (plots: seq<Plot>)
    ensures |plots| == 6
    ensures forall i :: 0 <= i < 3 ==>
      plots[i] == Plot(["a", "b", "c"][i], [[a, b, c][i]], MarkersAndLines, PlotColor(i))
    ensures forall i :: 3 <= i < 6 ==>
      plots[i] == Plot(["ab", "bc", "ca"][i - 3], [[a, b, c][i - 3], [a, b, c][(i - 2) % 3]], Lines, Black)
    // each edge runs between the two markers whose names it joins
    ensures plots[3].points == plots[0].points + plots[1].points && plots[3].name == plots[0].name + plots[1].name
    ensures plots[4].points == plots[1].points + plots[2].points && plots[4].name == plots[1].name + plots[2].name
    ensures plots[5].points == plots[2].points + plots[0].points && plots[5].name == plots[2].name + plots[0].name
  {
    plots := [];
    var labels := ["a", "b", "c"];
    var vecs := [a, b, c];
    for i := 0 to 3
      invariant |plots| == i
      invariant forall k :: 0 <= k < i ==> plots[k] == Plot(labels[k], [vecs[k]], MarkersAndLines, PlotColor(k))
    {
      var v := vecs[i];
      plots := plots + [Plot(labels[i], [v], MarkersAndLines, PlotColor(i))];
    }
    labels := ["ab", "bc", "ca"];
    for i := 0 to 3
      invariant |plots| == 3 + i
      invariant forall k :: 0 <= k < 3 ==> plots[k] == Plot(["a", "b", "c"][k], [vecs[k]], MarkersAndLines, PlotColor(k))
      invariant forall k :: 3 <= k < 3 + i ==> plots[k] == Plot(labels[k - 3], [vecs[k - 3], vecs[(k - 2) % 3]], Lines, Black)
    {
      var v1 := vecs[i];
      var v2 := vecs[(i + 1) % 3];
      plots := plots + [Plot(labels[i], [v1, v2], Lines, Black)];
    }
  }
}
