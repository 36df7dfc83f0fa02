/** Where `renderCircles` and `renderCircleTexts` put each state's marker and its text. */
module Markers {
  import opened Health
  import opened Scales

  datatype Point = Point(x: real, y: real)

  /** How far below the marker's centre its text is placed. */
  const TextOffset: real := 5.0

  /** The centre of one record's marker under the two scales. */
  function CircleAt(r: Record, xs: LinearScale, xk: XAxis, ys: LinearScale, yk: YAxis): Point
  {
    Point(Apply(xs, xk.Of(r)), Apply(ys, yk.Of(r)))
  }

  /** The `cx`/`cy` of every marker: one per record, in data set order. */
  function CirclePositions(data: seq<Record>, xs: LinearScale, xk: XAxis, ys: LinearScale, yk: YAxis)
    : (ps: seq<Point>)
    ensures |ps| == |data|
  {
    seq(|data|, i requires 0 <= i < |data| => CircleAt(data[i], xs, xk, ys, yk))
  }

  /** The `x`/`y` of every state's text, computed from the record as the source does. */
  function TextPositions(data: seq<Record>, xs: LinearScale, xk: XAxis, ys: LinearScale, yk: YAxis)
    : (ts: seq<Point>)
    ensures |ts| == |data|
  {
    seq(|data|, i requires 0 <= i < |data| =>
      Point(Apply(xs, xk.Of(data[i])), Apply(ys, yk.Of(data[i])) + TextOffset))
  }

  /** Every text sits at its own marker's x, `TextOffset` pixels below the marker's centre. */
  lemma TextsFollowCircles(data: seq<Record>, xs: LinearScale, xk: XAxis, ys: LinearScale, yk: YAxis)
    ensures forall i :: 0 <= i < |data| ==>
      TextPositions(data, xs, xk, ys, yk)[i]
        == Point(CirclePositions(data, xs, xk, ys, yk)[i].x, CirclePositions(data, xs, xk, ys, yk)[i].y + TextOffset)
  {
  }

  /** Each marker depends on its own record alone: placing two data sets one after the other
      places their markers one after the other, so markers stay in data set order. */
  lemma PositionsFollowRecords(a: seq<Record>, b: seq<Record>, xs: LinearScale, xk: XAxis, ys: LinearScale, yk: YAxis)
    ensures CirclePositions(a + b, xs, xk, ys, yk)
      == CirclePositions(a, xs, xk, ys, yk) + CirclePositions(b, xs, xk, ys, yk)
    ensures TextPositions(a + b, xs, xk, ys, yk)
      == TextPositions(a, xs, xk, ys, yk) + TextPositions(b, xs, xk, ys, yk)
  {
    var ab := a + b;
    forall i | |a| <= i < |ab|
      ensures ab[i] == b[i - |a|]
    {
    }
  }

  /** Every value of the chosen columns is non-negative (rates, ages and incomes are). */
  ghost predicate NonNegative(data: seq<Record>, xk: XAxis, yk: YAxis)
  {
    forall i :: 0 <= i < |data| ==> 0.0 <= xk.Of(data[i]) && 0.0 <= yk.Of(data[i])
  }

  /** Over non-negative data, the scales built for the chosen columns draw every marker inside
      the 820 x 400 plot area. */
  lemma MarkersInPlotArea(data: seq<Record>, xk: XAxis, yk: YAxis)
    requires |data| > 0 && NonNegative(data, xk, yk)
    ensures forall i :: 0 <= i < |data| ==>
      var p := CirclePositions(data, XScale(data, xk), xk, YScale(data, yk), yk)[i];
      0.0 <= p.x <= 820.0 && 0.0 <= p.y <= 400.0
  {
    var xs, ys := XScale(data, xk), YScale(data, yk);
    var xc, yc := XColumn(data, xk), YColumn(data, yk);
    DomainCoversData(xc);
    DomainCoversData(yc);
    forall i | 0 <= i < |data|
      ensures 0.0 <= Apply(xs, xk.Of(data[i])) <= 820.0
      ensures 0.0 <= Apply(ys, yk.Of(data[i])) <= 400.0
    {
      assert xc[i] == xk.Of(data[i]) && yc[i] == yk.Of(data[i]);
      ScaleWithin(xs, xk.Of(data[i]));
      ScaleWithin(ys, yk.Of(data[i]));
    }
  }

  /** Over non-negative data, a state with an x value at least another's is drawn no further
      left, and a state with a y value at least another's is drawn no lower (no larger pixel
      row). Equal pixels are possible, since a collapsed domain sends every value to one point. */
  lemma MarkersKeepOrder(data: seq<Record>, xk: XAxis, yk: YAxis, i: nat, j: nat)
    requires |data| > 0 && NonNegative(data, xk, yk)
    requires i < |data| && j < |data|
    ensures var ps := CirclePositions(data, XScale(data, xk), xk, YScale(data, yk), yk);
      (xk.Of(data[i]) <= xk.Of(data[j]) ==> ps[i].x <= ps[j].x) &&
      (yk.Of(data[i]) <= yk.Of(data[j]) ==> ps[j].y <= ps[i].y)
  {
    var xs, ys := XScale(data, xk), YScale(data, yk);
    DomainCoversData(XColumn(data, xk));
    DomainCoversData(YColumn(data, yk));
    if xk.Of(data[i]) <= xk.Of(data[j]) {
      ScaleMonotone(xs, xk.Of(data[i]), xk.Of(data[j]));
    }
    if yk.Of(data[i]) <= yk.Of(data[j]) {
      ScaleMonotone(ys, yk.Of(data[i]), yk.Of(data[j]));
    }
  }
}
