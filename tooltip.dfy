/** The text `updateToolTip` shows for a marker: two label lookups and one format string. */
module Tooltip {
  import opened Health

  /** The x label lookup: "poverty" and "income" have their own labels, anything else reads
      as age. */
  function XLabel(chosenXAxis: string): (caption: string)
    ensures caption == "Poverty:" <==> chosenXAxis == "poverty"
    ensures caption == "Income:" <==> chosenXAxis == "income"
    ensures caption == "Poverty:" || caption == "Income:" || caption == "Age:"
  {
    if chosenXAxis == "poverty" then "Poverty:"
    else if chosenXAxis == "income" then "Income:"
    else "Age:"
  }

  /** The y label lookup: "healthcare" and "smokes" have their own labels, anything else reads
      as obesity. */
  function YLabel(chosenYAxis: string): (caption: string)
    ensures caption == "No Healthcare:" <==> chosenYAxis == "healthcare"
    ensures caption == "Smokers:" <==> chosenYAxis == "smokes"
    ensures caption == "No Healthcare:" || caption == "Smokers:" || caption == "Obesity:"
  {
    if chosenYAxis == "healthcare" then "No Healthcare:"
    else if chosenYAxis == "smokes" then "Smokers:"
    else "Obesity:"
  }

  /** Each axis choice gets its own label, so the tooltip names the chosen columns. */
  lemma LabelsIdentifyAxes(a: XAxis, b: XAxis, c: YAxis, d: YAxis)
    ensures XLabel(a.Value()) == XLabel(b.Value()) <==> a == b
    ensures YLabel(c.Value()) == YLabel(d.Value()) <==> c == d
    ensures XLabel(Age.Value()) == "Age:" && YLabel(Obesity.Value()) == "Obesity:"
  {
  }

  /** The line break between the parts of a tooltip. */
  const Br: string := "<br>"

  /** One value line of a tooltip: its caption, a space, the value and a percent sign. */
  function Line(caption: string, value: string): string
  {
    caption + " " + value + "%"
  }

  /** The tooltip of one record: its state's name, the x line and the y line, separated by line
      breaks. `show` is the host's number-to-text conversion. */
  function TooltipHtml(r: Record, xk: XAxis, yk: YAxis, show: real -> string): string
  {
    r.state + Br + Line(XLabel(xk.Value()), show(xk.Of(r)))
      + Br + Line(YLabel(yk.Value()), show(yk.Of(r)))
  }

  /** The tooltip of every record, in data set order. */
  function Tooltips(data: seq<Record>, xk: XAxis, yk: YAxis, show: real -> string): (ts: seq<string>)
    ensures |ts| == |data|
  {
    seq(|data|, i requires 0 <= i < |data| => TooltipHtml(data[i], xk, yk, show))
  }

  /** The pieces of `s` between occurrences of `sep`. */
  function Split(s: string, sep: char): (parts: seq<string>)
    ensures |parts| > 0
    ensures forall k :: 0 <= k < |parts| ==> sep !in parts[k]
  {
    if s == [] then [""]
    else
      var rest := Split(s[1..], sep);
      if s[0] == sep then [""] + rest
      else [[s[0]] + rest[0]] + rest[1..]
  }

  /** A piece without the separator, followed by the separator, splits off as one part. */
  lemma {:induction false} SplitFirst(a: string, b: string, sep: char)
    requires sep !in a
    ensures Split(a + [sep] + b, sep) == [a] + Split(b, sep)
  {
    if a != [] {
      var s := a + [sep] + b;
      assert s[0] == a[0] && s[1..] == a[1..] + [sep] + b;
      assert sep !in a[1..];
      SplitFirst(a[1..], b, sep);
      assert [a[0]] + a[1..] == a;
    } else {
      assert (a + [sep] + b)[1..] == b;
    }
  }

  /** A string without the separator is a single part. */
  lemma {:induction false} SplitNone(a: string, sep: char)
    requires sep !in a
    ensures Split(a, sep) == [a]
  {
    if a != [] {
      SplitNone(a[1..], sep);
      assert [a[0]] + a[1..] == a;
    }
  }

  /** A line break followed by a value line is a '<' followed by the rest of the break and the
      line; the rest holds no '<' when the caption and the value hold none. */
  lemma BreakThenLine(caption: string, value: string)
    requires '<' !in caption && '<' !in value
    ensures Br + Line(caption, value) == ['<'] + ("br>" + Line(caption, value))
    ensures '<' !in "br>" + Line(caption, value)
  {
  }

  /** Reading the tooltip back: cut at each '<', it gives the state's name, then the x line and
      the y line, each with its label and its value, provided the name and the printed numbers
      hold no '<'. */
  lemma TooltipLines(r: Record, xk: XAxis, yk: YAxis, show: real -> string)
    requires '<' !in r.state
    requires '<' !in show(xk.Of(r)) && '<' !in show(yk.Of(r))
    ensures Split(TooltipHtml(r, xk, yk, show), '<') ==
      [r.state,
       "br>" + Line(XLabel(xk.Value()), show(xk.Of(r))),
       "br>" + Line(YLabel(yk.Value()), show(yk.Of(r)))]
  {
    var xc, yc := XLabel(xk.Value()), YLabel(yk.Value());
    var xl, yl := Line(xc, show(xk.Of(r))), Line(yc, show(yk.Of(r)));
    assert '<' !in xc && '<' !in yc;
    BreakThenLine(xc, show(xk.Of(r)));
    BreakThenLine(yc, show(yk.Of(r)));
    var xline, yline := "br>" + xl, "br>" + yl;
    assert TooltipHtml(r, xk, yk, show) == r.state + (Br + xl) + (Br + yl);
    assert TooltipHtml(r, xk, yk, show) == r.state + ['<'] + (xline + ['<'] + yline);
    SplitFirst(r.state, xline + ['<'] + yline, '<');
    SplitFirst(xline, yline, '<');
    SplitNone(yline, '<');
  }

  /** A state with 19.1% in poverty and 11.2% without healthcare, under the initial axes. */
  lemma TooltipExample(r: Record, show: real -> string)
    requires r.poverty == 19.1 && r.healthcare == 11.2
    requires show(19.1) == "19.1" && show(11.2) == "11.2"
    ensures TooltipHtml(r, Poverty, Healthcare, show)
      == r.state + Br + "Poverty: 19.1%" + Br + "No Healthcare: 11.2%"
  {
    assert XLabel(Poverty.Value()) == "Poverty:";
    assert YLabel(Healthcare.Value()) == "No Healthcare:";
    assert Line("Poverty:", show(r.poverty)) == "Poverty: 19.1%";
    assert Line("No Healthcare:", show(r.healthcare)) == "No Healthcare: 11.2%";
  }
}
