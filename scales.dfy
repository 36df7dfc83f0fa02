/** Chart geometry and the padded linear scales built by `xScale` and `yScale`. */
module Scales {
  import opened Health

  const SvgWidth: real := 960.0
  const SvgHeight: real := 500.0

  datatype Margin = Margin(top: real, right: real, bottom: real, left: real)

  const ChartMargin: Margin := Margin(20.0, 40.0, 80.0, 100.0)

  /** The plot area inside the margins. */
  const Width: real := SvgWidth - ChartMargin.left - ChartMargin.right
  const Height: real := SvgHeight - ChartMargin.top - ChartMargin.bottom

  /** A linear scale: the domain [d0, d1] is mapped onto the range [r0, r1] (either may run
      downwards). */
  datatype LinearScale = LinearScale(d0: real, d1: real, r0: real, r1: real)

  /** Linear interpolation of `v` from the domain onto the range. A collapsed domain sends
      every value to the middle of the range. */
  function Apply(s: LinearScale, v: real): real
  {
    if s.d0 == s.d1 then (s.r0 + s.r1) / 2.0
    else Lerp(s.r0, s.r1, (v - s.d0) / (s.d1 - s.d0))
  }

  /** The point a fraction `t` of the way from `a` to `b`. */
  function Lerp(a: real, b: real, t: real): real
  {
    a + t * (b - a)
  }

  /** `d3.min` over a non-empty column. */
  function MinOf(s: seq<real>): (m: real)
    requires |s| > 0
    ensures m in s
    ensures forall i :: 0 <= i < |s| ==> m <= s[i]
  {
    if |s| == 1 then s[0]
    else
      var rest := MinOf(s[1..]);
      if s[0] <= rest then s[0] else rest
  }

  /** `d3.max` over a non-empty column. */
  function MaxOf(s: seq<real>): (m: real)
    requires |s| > 0
    ensures m in s
    ensures forall i :: 0 <= i < |s| ==> s[i] <= m
  {
    if |s| == 1 then s[0]
    else
      var rest := MaxOf(s[1..]);
      if rest <= s[0] then s[0] else rest
  }

  /** The padded domain of a column, `[d3.min * 0.8, d3.max * 1.2]`. */
  function PaddedDomain(col: seq<real>): (real, real)
    requires |col| > 0
  {
    (MinOf(col) * 0.8, MaxOf(col) * 1.2)
  }

  /** The padding law: the lower end of the domain is 0.8 times some value of the column and at
      most 0.8 times every value; the upper end is 1.2 times some value and at least 1.2 times
      every value. */
  lemma PaddingLaw(col: seq<real>)
    requires |col| > 0
    ensures exists i :: 0 <= i < |col| && PaddedDomain(col).0 == col[i] * 0.8
    ensures forall i :: 0 <= i < |col| ==> PaddedDomain(col).0 <= col[i] * 0.8
    ensures exists j :: 0 <= j < |col| && PaddedDomain(col).1 == col[j] * 1.2
    ensures forall j :: 0 <= j < |col| ==> col[j] * 1.2 <= PaddedDomain(col).1
  {
    var lo, hi := MinOf(col), MaxOf(col);
    var i :| 0 <= i < |col| && col[i] == lo;
    var j :| 0 <= j < |col| && col[j] == hi;
    assert PaddedDomain(col).0 == col[i] * 0.8;
    assert PaddedDomain(col).1 == col[j] * 1.2;
  }

  /** `xScale(healthData, chosenXAxis)`: padded domain of the chosen column onto [0, width]. */
  function XScale(data: seq<Record>, k: XAxis): (s: LinearScale)
    requires |data| > 0
    ensures (s.d0, s.d1) == PaddedDomain(XColumn(data, k))
    ensures s.r0 == 0.0 && s.r1 == 820.0
  {
    var d := PaddedDomain(XColumn(data, k));
    LinearScale(d.0, d.1, 0.0, Width)
  }

  /** `yScale(healthData, chosenYAxis)`: padded domain of the chosen column onto the
      inverted range [height, 0], since pixel rows grow downwards. */
  function YScale(data: seq<Record>, k: YAxis): (s: LinearScale)
    requires |data| > 0
    ensures (s.d0, s.d1) == PaddedDomain(YColumn(data, k))
    ensures s.r0 == 400.0 && s.r1 == 0.0
  {
    var d := PaddedDomain(YColumn(data, k));
    LinearScale(d.0, d.1, Height, 0.0)
  }

  /** Over non-negative data the padded domain is an interval that holds every value. */
  lemma DomainCoversData(col: seq<real>)
    requires |col| > 0
    requires forall i :: 0 <= i < |col| ==> 0.0 <= col[i]
    ensures PaddedDomain(col).0 <= PaddedDomain(col).1
    ensures forall i :: 0 <= i < |col| ==>
      PaddedDomain(col).0 <= col[i] <= PaddedDomain(col).1
  {
    var lo, hi := MinOf(col), MaxOf(col);
    forall i | 0 <= i < |col|
      ensures lo * 0.8 <= col[i] <= hi * 1.2
    {
      assert 0.0 <= lo <= col[i] <= hi;
    }
    assert lo <= col[0] <= hi;
  }

  /** With negative data the padding can shrink the domain so that values fall outside it. */
  lemma NegativeDataEscapesDomain()
    ensures PaddedDomain([-10.0, -1.0]) == (-8.0, -1.2)
    ensures -10.0 < PaddedDomain([-10.0, -1.0]).0
  {
    var col := [-10.0, -1.0];
    assert MinOf(col[1..]) == -1.0;
    assert MaxOf(col[1..]) == -1.0;
  }

  /** The ends of the domain land on the ends of the range. */
  lemma ScaleEnds(s: LinearScale)
    requires s.d0 != s.d1
    ensures Apply(s, s.d0) == s.r0
    ensures Apply(s, s.d1) == s.r1
  {
  }

  /** Moving a fraction in [0, 1] of the way from `a` to `b` stays between them. */
  lemma Between(t: real, a: real, b: real)
    requires 0.0 <= t <= 1.0
    ensures a <= b ==> a <= Lerp(a, b, t) <= b
    ensures b <= a ==> b <= Lerp(a, b, t) <= a
  {
    var w := b - a;
    assert w - t * w == (1.0 - t) * w;
    if a <= b {
      assert 0.0 <= t * w && 0.0 <= (1.0 - t) * w;
    } else {
      assert t * w <= 0.0 && (1.0 - t) * w <= 0.0;
    }
  }

  /** Where a value lies in a domain with d0 < d1, as a fraction in [0, 1]. */
  lemma DomainFraction(s: LinearScale, v: real)
    requires s.d0 < s.d1 && s.d0 <= v <= s.d1
    ensures 0.0 <= (v - s.d0) / (s.d1 - s.d0) <= 1.0
  {
    var c, t := s.d1 - s.d0, (v - s.d0) / (s.d1 - s.d0);
    assert t * c == v - s.d0;
    NonNegativeFactor(t, c);
    assert (1.0 - t) * c == s.d1 - v;
    NonNegativeFactor(1.0 - t, c);
  }

  /** A product with a positive factor is non-negative only if the other factor is. */
  lemma NonNegativeFactor(t: real, c: real)
    requires 0.0 < c && 0.0 <= t * c
    ensures 0.0 <= t
  {
  }

  /** A value inside the domain is drawn inside the range, whichever way the range runs. */
  lemma ScaleWithin(s: LinearScale, v: real)
    requires s.d0 <= v <= s.d1
    ensures s.r0 <= s.r1 ==> s.r0 <= Apply(s, v) <= s.r1
    ensures s.r1 <= s.r0 ==> s.r1 <= Apply(s, v) <= s.r0
  {
    if s.d0 != s.d1 {
      DomainFraction(s, v);
      Between((v - s.d0) / (s.d1 - s.d0), s.r0, s.r1);
    }
  }

  /** Dividing by a positive amount keeps order. */
  lemma DivideKeepsOrder(a: real, b: real, c: real)
    requires a <= b && 0.0 < c
    ensures a / c <= b / c
  {
    assert b / c - a / c == (b - a) / c;
  }

  /** Multiplying by a non-negative amount keeps order, by a non-positive one reverses it. */
  lemma MultiplyOrder(a: real, b: real, w: real)
    requires a <= b
    ensures 0.0 <= w ==> a * w <= b * w
    ensures w <= 0.0 ==> b * w <= a * w
  {
    assert b * w - a * w == (b - a) * w;
  }

  /** A scale over an increasing domain keeps the order of values onto an increasing range and
      reverses it onto a decreasing one. */
  lemma ScaleMonotone(s: LinearScale, v: real, w: real)
    requires s.d0 <= s.d1 && v <= w
    ensures s.r0 <= s.r1 ==> Apply(s, v) <= Apply(s, w)
    ensures s.r1 <= s.r0 ==> Apply(s, w) <= Apply(s, v)
  {
    if s.d0 != s.d1 {
      DivideKeepsOrder(v - s.d0, w - s.d0, s.d1 - s.d0);
      MultiplyOrder((v - s.d0) / (s.d1 - s.d0), (w - s.d0) / (s.d1 - s.d0), s.r1 - s.r0);
    }
  }

  /** Two states with poverty rates 10 and 20 and healthcare rates 5 and 15: the x domain is
      [8, 24] and the y domain [4, 18], and the markers land at these pixels. */
  lemma TwoStateScenario(a: Record, b: Record)
    requires a.poverty == 10.0 && b.poverty == 20.0
    requires a.healthcare == 5.0 && b.healthcare == 15.0
    ensures XScale([a, b], Poverty) == LinearScale(8.0, 24.0, 0.0, 820.0)
    ensures Apply(XScale([a, b], Poverty), 10.0) == 102.5
    ensures Apply(XScale([a, b], Poverty), 20.0) == 615.0
    ensures YScale([a, b], Healthcare) == LinearScale(4.0, 18.0, 400.0, 0.0)
    ensures Apply(YScale([a, b], Healthcare), 5.0) == 2600.0 / 7.0
    ensures Apply(YScale([a, b], Healthcare), 15.0) == 600.0 / 7.0
  {
    var xc, yc := XColumn([a, b], Poverty), YColumn([a, b], Healthcare);
    assert xc == [10.0, 20.0];
    assert yc == [5.0, 15.0];
    assert MinOf(xc[1..]) == 20.0 && MaxOf(xc[1..]) == 20.0;
    assert MinOf(yc[1..]) == 15.0 && MaxOf(yc[1..]) == 15.0;
  }
}
