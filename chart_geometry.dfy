/**
 * The numbers the chat's three hand-drawn charts compute from a record's chart
 * data: bar heights, pie slice dashes and line-chart point coordinates, all in
 * the percentage / 100x100 view-box units the components draw in.
 */
module ChartGeometry {
  import opened Wrappers
  import opened Numeric

  /** One entry of a record's `chartData`. */
  datatype DataPoint = DataPoint(itemLabel: string, value: real, color: Option<string>)

  /** `data.map((item) => item.value)`. */
  function Values(data: seq<DataPoint>): seq<real> {
    seq(|data|, i requires 0 <= i < |data| => data[i].value)
  }

  /** `values.reduce((sum, v) => sum + v, 0)`, folded from the left. */
  function Sum(vs: seq<real>): real {
    if vs == [] then 0.0 else Sum(vs[..|vs| - 1]) + vs[|vs| - 1]
  }

  /** `Math.max(...values)` on a non-empty list. */
  function MaxOf(vs: seq<real>): (m: real)
    requires |vs| > 0
    ensures exists i :: 0 <= i < |vs| && vs[i] == m
    ensures forall i :: 0 <= i < |vs| ==> vs[i] <= m
  {
    if |vs| == 1 then vs[0]
    else
      var rest := MaxOf(vs[1..]);
      assert forall i :: 1 <= i < |vs| ==> vs[i] == vs[1..][i - 1];
      if vs[0] > rest then vs[0] else rest
  }

  /** `Math.min(...values)` on a non-empty list. */
  function MinOf(vs: seq<real>): (m: real)
    requires |vs| > 0
    ensures exists i :: 0 <= i < |vs| && vs[i] == m
    ensures forall i :: 0 <= i < |vs| ==> m <= vs[i]
  {
    if |vs| == 1 then vs[0]
    else
      var rest := MinOf(vs[1..]);
      assert forall i :: 1 <= i < |vs| ==> vs[i] == vs[1..][i - 1];
      if vs[0] < rest then vs[0] else rest
  }

  // ---------------------------------------------------------------------------
  // Bar chart
  // ---------------------------------------------------------------------------

  /** The largest value of the chart data. */
  function MaxValue(data: seq<DataPoint>): real
    requires |data| > 0
  {
    MaxOf(Values(data))
  }

  /** Each bar's CSS height in percent: `(item.value / maxValue) * 100`. */
  function BarHeights(data: seq<DataPoint>): seq<real>
    requires |data| > 0 && MaxValue(data) > 0.0
  {
    var m := MaxValue(data);
    seq(|data|, i requires 0 <= i < |data| => data[i].value / m * 100.0)
  }

  /** With no negative value, every bar lies between 0 and 100 percent and the tallest is exactly 100. */
  lemma BarHeightsBounded(data: seq<DataPoint>)
    requires |data| > 0 && MaxValue(data) > 0.0
    requires forall i :: 0 <= i < |data| ==> data[i].value >= 0.0
    ensures |BarHeights(data)| == |data|
    ensures forall i :: 0 <= i < |data| ==> 0.0 <= BarHeights(data)[i] <= 100.0
    ensures forall i :: 0 <= i < |data| && data[i].value == MaxValue(data) ==> BarHeights(data)[i] == 100.0
    ensures exists i :: 0 <= i < |data| && BarHeights(data)[i] == 100.0
  {
    var m := MaxValue(data);
    var hs := BarHeights(data);
    forall i | 0 <= i < |data|
      ensures 0.0 <= hs[i] <= 100.0
    {
      assert Values(data)[i] == data[i].value;
      DivUnit(data[i].value, m);
    }
    DivSelf(m);
    var k :| 0 <= k < |data| && Values(data)[k] == m;
    assert hs[k] == 100.0;
  }

  /** Bars keep the order of their values: one bar is at most as tall as another exactly when its value is at most the other's. */
  lemma BarHeightsOrdered(data: seq<DataPoint>, i: int, j: int)
    requires |data| > 0 && MaxValue(data) > 0.0
    requires 0 <= i < |data| && 0 <= j < |data|
    ensures BarHeights(data)[i] <= BarHeights(data)[j] <==> data[i].value <= data[j].value
  {
    var m := MaxValue(data);
    if data[i].value <= data[j].value {
      DivMonotonic(data[i].value, data[j].value, m);
    } else {
      DivStrictMonotonic(data[j].value, data[i].value, m);
    }
  }

  // ---------------------------------------------------------------------------
  // Pie chart
  // ---------------------------------------------------------------------------

  /**
   * One pie slice, drawn as a dashed circle stroke: `percent` is the dash
   * length, `gap` the space after it (`strokeDasharray`), and `start` the
   * running percentage where the slice begins (its `strokeDashoffset` is
   * `-start + 25`).
   */
  datatype Slice = Slice(percent: real, start: real, gap: real)

  /** The pie's total: the sum of the values. */
  function Total(data: seq<DataPoint>): real {
    Sum(Values(data))
  }

  /** The pie layout as a closed formula: slice i starts at the share of the values before it. */
  function PieLayout(data: seq<DataPoint>): seq<Slice>
    requires Total(data) != 0.0
  {
    var t := Total(data);
    var vs := Values(data);
    seq(|data|, i requires 0 <= i < |data| =>
      Slice(vs[i] / t * 100.0, Sum(vs[..i]) / t * 100.0, 100.0 - vs[i] / t * 100.0))
  }

  /**
   * The `PieChart` loop: walks the data once, keeping the running
   * `cumulativePercent`; each slice starts where the running percentage stood
   * and then advances it by its own percentage.
   */
  method PieSlices(data: seq<DataPoint>) returns (slices: seq<Slice>)
    requires Total(data) != 0.0
    ensures slices == PieLayout(data)
  {
    var total := Total(data);
    ghost var vs := Values(data);
    var cumulativePercent := 0.0;
    slices := [];
    for i := 0 to |data|
      invariant |slices| == i
      invariant cumulativePercent == Sum(vs[..i]) / total * 100.0
      invariant forall k :: 0 <= k < i ==> slices[k] == PieLayout(data)[k]
    {
      var percent := data[i].value / total * 100.0;
      var startPercent := cumulativePercent;
      cumulativePercent := cumulativePercent + percent;
      slices := slices + [Slice(percent, startPercent, 100.0 - percent)];
      assert vs[..i + 1][..i] == vs[..i];
      assert Sum(vs[..i + 1]) == Sum(vs[..i]) + vs[i];
      DivAdd(Sum(vs[..i]), vs[i], total);
    }
  }

  /** The slice percentages of a prefix add up to the share of that prefix. */
  lemma {:induction false} PiePrefixShare(data: seq<DataPoint>, k: nat)
    requires Total(data) != 0.0 && k <= |data|
    ensures Sum(seq(k, i requires 0 <= i < k => PieLayout(data)[i].percent)) == Sum(Values(data)[..k]) / Total(data) * 100.0
  {
    var t := Total(data);
    var vs := Values(data);
    var ps := seq(k, i requires 0 <= i < k => PieLayout(data)[i].percent);
    if k > 0 {
      PiePrefixShare(data, k - 1);
      assert ps[..k - 1] == seq(k - 1, i requires 0 <= i < k - 1 => PieLayout(data)[i].percent);
      assert vs[..k][..k - 1] == vs[..k - 1];
      DivAdd(Sum(vs[..k - 1]), vs[k - 1], t);
    }
  }

  /**
   * The pie closes: the first slice starts at 0, each slice starts where the
   * previous one ended, the gap completes each dash to 100, and the
   * percentages add up to exactly 100.
   */
  lemma PieCloses(data: seq<DataPoint>)
    requires Total(data) != 0.0 && |data| > 0
    ensures PieLayout(data)[0].start == 0.0
    ensures forall i :: 0 <= i < |data| - 1 ==>
      PieLayout(data)[i + 1].start == PieLayout(data)[i].start + PieLayout(data)[i].percent
    ensures forall i :: 0 <= i < |data| ==> PieLayout(data)[i].percent + PieLayout(data)[i].gap == 100.0
    ensures PieLayout(data)[|data| - 1].start + PieLayout(data)[|data| - 1].percent == 100.0
    ensures Sum(seq(|data|, i requires 0 <= i < |data| => PieLayout(data)[i].percent)) == 100.0
  {
    assert Values(data)[..0] == [];
    PieAdjacent(data);
    PieEnd(data);
    PiePrefixShare(data, |data|);
    assert Values(data)[..|data|] == Values(data);
    DivSelf(Total(data));
  }

  /** Proof helper: each slice starts where the previous one ended. */
  lemma PieAdjacent(data: seq<DataPoint>)
    requires Total(data) != 0.0
    ensures forall i :: 0 <= i < |data| - 1 ==>
      PieLayout(data)[i + 1].start == PieLayout(data)[i].start + PieLayout(data)[i].percent
  {
    var t := Total(data);
    var vs := Values(data);
    forall i | 0 <= i < |data| - 1
      ensures PieLayout(data)[i + 1].start == PieLayout(data)[i].start + PieLayout(data)[i].percent
    {
      assert vs[..i + 1][..i] == vs[..i];
      DivAdd(Sum(vs[..i]), vs[i], t);
    }
  }

  /** Proof helper: the last slice ends at 100. */
  lemma PieEnd(data: seq<DataPoint>)
    requires Total(data) != 0.0 && |data| > 0
    ensures PieLayout(data)[|data| - 1].start + PieLayout(data)[|data| - 1].percent == 100.0
  {
    var t := Total(data);
    var vs := Values(data);
    var n := |data|;
    assert vs[..n] == vs;
    assert vs[..n][..n - 1] == vs[..n - 1];
    DivAdd(Sum(vs[..n - 1]), vs[n - 1], t);
    DivSelf(t);
  }

  // ---------------------------------------------------------------------------
  // Line chart
  // ---------------------------------------------------------------------------

  /** A polyline vertex in the 100x100 view box. */
  datatype Point = Point(x: real, y: real)

  function MinValue(data: seq<DataPoint>): real
    requires |data| > 0
  {
    MinOf(Values(data))
  }

  /** `maxValue - minValue`. */
  function Range(data: seq<DataPoint>): real
    requires |data| > 0
  {
    MaxValue(data) - MinValue(data)
  }

  /** A point's x coordinate: `i / (n - 1) * 90 + 5`. */
  function XCoord(i: nat, n: nat): real
    requires n >= 2
  {
    i as real / (n - 1) as real * 90.0 + 5.0
  }

  /** A point's y coordinate: `90 - (value - min) / range * 80 + 5`. */
  function YCoord(v: real, lo: real, range: real): real
    requires range > 0.0
  {
    90.0 - (v - lo) / range * 80.0 + 5.0
  }

  /** The polyline points, one per data point, in data order. */
  function LinePoints(data: seq<DataPoint>): seq<Point>
    requires |data| >= 2 && Range(data) > 0.0
  {
    var n := |data|;
    var lo := MinValue(data);
    var range := Range(data);
    seq(n, i requires 0 <= i < n => Point(XCoord(i, n), YCoord(data[i].value, lo, range)))
  }

  /** The points span the view box horizontally from 5 to 95, left to right in data order. */
  lemma LineXSpan(data: seq<DataPoint>)
    requires |data| >= 2 && Range(data) > 0.0
    ensures |LinePoints(data)| == |data|
    ensures LinePoints(data)[0].x == 5.0
    ensures LinePoints(data)[|data| - 1].x == 95.0
    ensures forall i, j :: 0 <= i < j < |data| ==> LinePoints(data)[i].x < LinePoints(data)[j].x
  {
    var n := |data|;
    DivSelf((n - 1) as real);
    assert 0 as real / (n - 1) as real == 0.0;
    forall i, j | 0 <= i < j < n
      ensures LinePoints(data)[i].x < LinePoints(data)[j].x
    {
      DivStrictMonotonic(i as real, j as real, (n - 1) as real);
    }
  }

  /**
   * Vertically the points lie between 15 and 95: the minimum value sits at the
   * bottom (95), the maximum at the top (15), and a larger value is drawn higher.
   */
  lemma LineYSpan(data: seq<DataPoint>)
    requires |data| >= 2 && Range(data) > 0.0
    ensures forall i :: 0 <= i < |data| ==> 15.0 <= LinePoints(data)[i].y <= 95.0
    ensures forall i :: 0 <= i < |data| && data[i].value == MinValue(data) ==> LinePoints(data)[i].y == 95.0
    ensures forall i :: 0 <= i < |data| && data[i].value == MaxValue(data) ==> LinePoints(data)[i].y == 15.0
    ensures forall i, j :: 0 <= i < |data| && 0 <= j < |data| ==>
      (data[i].value < data[j].value <==> LinePoints(data)[j].y < LinePoints(data)[i].y)
  {
    var lo, range := MinValue(data), Range(data);
    var ps := LinePoints(data);
    DivSelf(range);
    assert 0.0 / range == 0.0;
    forall i | 0 <= i < |data|
      ensures 15.0 <= ps[i].y <= 95.0
    {
      assert Values(data)[i] == data[i].value;
      DivUnit(data[i].value - lo, range);
    }
    forall i, j | 0 <= i < |data| && 0 <= j < |data|
      ensures data[i].value < data[j].value <==> ps[j].y < ps[i].y
    {
      if data[i].value < data[j].value {
        DivStrictMonotonic(data[i].value - lo, data[j].value - lo, range);
      } else {
        DivMonotonic(data[j].value - lo, data[i].value - lo, range);
      }
    }
  }

  /** The middle y-axis label: `Math.round((maxValue + minValue) / 2)`. */
  function MidLabel(data: seq<DataPoint>): int
    requires |data| > 0
  {
    Round((MaxValue(data) + MinValue(data)) / 2.0)
  }

  /** The middle label lies between the bottom and top labels, up to the rounding half-unit. */
  lemma MidLabelBetween(data: seq<DataPoint>)
    requires |data| > 0
    ensures MinValue(data) - 0.5 <= MidLabel(data) as real <= MaxValue(data) + 0.5
  {
    assert Values(data)[0] <= MaxValue(data) && MinValue(data) <= Values(data)[0];
  }
}
