/** The axis-selection controller: the two chosen columns, the scales and marker positions built
    from them, and the `active`/`inactive` classes of the six axis labels. */
module Selection {
  import opened Health
  import opened Scales
  import opened Markers
  import opened Tooltip

  /** The two classes that mark a label as chosen or not. */
  datatype LabelClasses = LabelClasses(active: bool, inactive: bool)

  /** `.classed("active", true).classed("inactive", false)` */
  const Active: LabelClasses := LabelClasses(true, false)
  /** `.classed("active", false).classed("inactive", true)` */
  const Inactive: LabelClasses := LabelClasses(false, true)

  /** An axis transition started by a click, with the scale it animates to. */
  datatype AxisTransition = XAxisTransition(xs: LinearScale) | YAxisTransition(ys: LinearScale)

  class Chart {
    /** The loaded data set, shared read-only by everything else. */
    const data: seq<Record>
    /** The number-to-text conversion the tooltips use. */
    const show: real -> string

    var chosenXAxis: XAxis
    var chosenYAxis: YAxis
    var xLinearScale: LinearScale
    var yLinearScale: LinearScale
    /** Where the markers and their texts are (or are moving to). */
    var circles: seq<Point>
    var circleTexts: seq<Point>
    /** The tooltip each marker shows on hover. */
    var tooltips: seq<string>
    var povertyLabel: LabelClasses
    var ageLabel: LabelClasses
    var incomeLabel: LabelClasses
    var healthcareLabel: LabelClasses
    var smokesLabel: LabelClasses
    var obeseLabel: LabelClasses
    /** Every axis transition started so far, oldest first. */
    var transitions: seq<AxisTransition>

    /** The classes of the x label whose `value` is `k`. */
    function XLabelClasses(k: XAxis): LabelClasses
      reads this
    {
      match k
      case Poverty => povertyLabel
      case Age => ageLabel
      case Income => incomeLabel
    }

    /** The classes of the y label whose `value` is `k`. */
    function YLabelClasses(k: YAxis): LabelClasses
      reads this
    {
      match k
      case Healthcare => healthcareLabel
      case Smokes => smokesLabel
      case Obesity => obeseLabel
    }

    /** Everything drawn agrees with the two choices: the scales are built from the chosen
        columns, the markers, texts and tooltips from those scales and columns, and exactly the
        chosen label of each group is active. */
    ghost predicate Valid()
      reads this
    {
      && |data| > 0
      && xLinearScale == XScale(data, chosenXAxis)
      && yLinearScale == YScale(data, chosenYAxis)
      && MarkersAgree()
      && XLabelsAgree()
      && YLabelsAgree()
    }

    /** The markers, their texts and the tooltips are drawn from the current scales and choices. */
    predicate MarkersAgree()
      reads this
    {
      && circles == CirclePositions(data, xLinearScale, chosenXAxis, yLinearScale, chosenYAxis)
      && circleTexts == TextPositions(data, xLinearScale, chosenXAxis, yLinearScale, chosenYAxis)
      && tooltips == Tooltips(data, chosenXAxis, chosenYAxis, show)
    }

    /** Exactly the chosen x label is active, the other two inactive. */
    predicate XLabelsAgree()
      reads this
    {
      && povertyLabel == (if chosenXAxis == Poverty then Active else Inactive)
      && ageLabel == (if chosenXAxis == Age then Active else Inactive)
      && incomeLabel == (if chosenXAxis == Income then Active else Inactive)
    }

    /** Exactly the chosen y label is active, the other two inactive. */
    predicate YLabelsAgree()
      reads this
    {
      && healthcareLabel == (if chosenYAxis == Healthcare then Active else Inactive)
      && smokesLabel == (if chosenYAxis == Smokes then Active else Inactive)
      && obeseLabel == (if chosenYAxis == Obesity then Active else Inactive)
    }

    /** When the label classes agree with the choices (as they do in every `Valid` chart), every
        label is either active or inactive, never both, and in each group exactly the chosen
        label is active. */
    lemma OneActivePerGroup()
      requires XLabelsAgree() && YLabelsAgree()
      ensures forall k: XAxis :: XLabelClasses(k).active != XLabelClasses(k).inactive
      ensures forall k: YAxis :: YLabelClasses(k).active != YLabelClasses(k).inactive
      ensures forall k: XAxis :: XLabelClasses(k).active <==> k == chosenXAxis
      ensures forall k: YAxis :: YLabelClasses(k).active <==> k == chosenYAxis
    {
    }

    /** The chart as first drawn: poverty against healthcare, with the poverty and healthcare
        labels active and the other four inactive. */
    constructor (data: seq<Record>, show: real -> string)
      requires |data| > 0
      ensures Valid()
      ensures this.data == data && this.show == show
      ensures chosenXAxis == Poverty && chosenYAxis == Healthcare
      ensures povertyLabel == Active && ageLabel == Inactive && incomeLabel == Inactive
      ensures healthcareLabel == Active && smokesLabel == Inactive && obeseLabel == Inactive
      ensures transitions == []
    {
      this.data := data;
      this.show := show;
      chosenXAxis := Poverty;
      chosenYAxis := Healthcare;
      var xs := XScale(data, Poverty);
      var ys := YScale(data, Healthcare);
      xLinearScale := xs;
      yLinearScale := ys;
      circles := CirclePositions(data, xs, Poverty, ys, Healthcare);
      circleTexts := TextPositions(data, xs, Poverty, ys, Healthcare);
      povertyLabel := Active;
      ageLabel := Inactive;
      incomeLabel := Inactive;
      healthcareLabel := Active;
      smokesLabel := Inactive;
      obeseLabel := Inactive;
      tooltips := Tooltips(data, Poverty, Healthcare, show);
      transitions := [];
    }

    /** Moves every marker and its text to the current scales and choices (`renderCircles`,
        `renderCircleTexts`) and rebuilds the tooltips for the current choices (`updateToolTip`). */
    method RenderMarkers()
      modifies this`circles, this`circleTexts, this`tooltips
      ensures MarkersAgree()
    {
      circles := CirclePositions(data, xLinearScale, chosenXAxis, yLinearScale, chosenYAxis);
      circleTexts := TextPositions(data, xLinearScale, chosenXAxis, yLinearScale, chosenYAxis);
      tooltips := Tooltips(data, chosenXAxis, chosenYAxis, show);
    }

    /** Gives the chosen x label the `active` class and the other two the `inactive` class. */
    method MarkXLabels()
      modifies this`povertyLabel, this`ageLabel, this`incomeLabel
      ensures XLabelsAgree()
    {
      if chosenXAxis == Poverty {
        povertyLabel := Active;
        ageLabel := Inactive;
        incomeLabel := Inactive;
      } else if chosenXAxis == Age {
        povertyLabel := Inactive;
        ageLabel := Active;
        incomeLabel := Inactive;
      } else {
        povertyLabel := Inactive;
        ageLabel := Inactive;
        incomeLabel := Active;
      }
    }

    /** Gives the chosen y label the `active` class and the other two the `inactive` class,
        testing obesity first and smokes second as the source does. */
    method MarkYLabels()
      modifies this`healthcareLabel, this`smokesLabel, this`obeseLabel
      ensures YLabelsAgree()
    {
      if chosenYAxis == Obesity {
        obeseLabel := Active;
        smokesLabel := Inactive;
        healthcareLabel := Inactive;
      } else if chosenYAxis == Smokes {
        obeseLabel := Inactive;
        smokesLabel := Active;
        healthcareLabel := Inactive;
      } else {
        obeseLabel := Inactive;
        smokesLabel := Inactive;
        healthcareLabel := Active;
      }
    }

    /** A click on the x label whose `value` is `value`. Clicking the chosen label changes
        nothing; any other x label becomes the choice, the x scale alone is rebuilt, and the y
        choice, the y scale and the y labels are kept. */
    method ClickX(value: XAxis)
      requires Valid()
      modifies this
      ensures Valid()
      ensures value == old(chosenXAxis) ==> unchanged(this)
      ensures chosenXAxis == value
      ensures xLinearScale == XScale(data, value)
      ensures transitions == if value == old(chosenXAxis) then old(transitions)
                             else old(transitions) + [XAxisTransition(xLinearScale)]
      ensures chosenYAxis == old(chosenYAxis) && yLinearScale == old(yLinearScale)
      ensures healthcareLabel == old(healthcareLabel) && smokesLabel == old(smokesLabel)
      ensures obeseLabel == old(obeseLabel)
      ensures forall k: XAxis :: XLabelClasses(k).active <==> k == value
    {
      if value != chosenXAxis {
        chosenXAxis := value;
        xLinearScale := XScale(data, chosenXAxis);
        transitions := transitions + [XAxisTransition(xLinearScale)];
        RenderMarkers();
        MarkXLabels();
      }
      OneActivePerGroup();
    }

    /** A click on the y label whose `value` is `value`; the mirror image of `ClickX`. */
    method ClickY(value: YAxis)
      requires Valid()
      modifies this
      ensures Valid()
      ensures value == old(chosenYAxis) ==> unchanged(this)
      ensures chosenYAxis == value
      ensures yLinearScale == YScale(data, value)
      ensures transitions == if value == old(chosenYAxis) then old(transitions)
                             else old(transitions) + [YAxisTransition(yLinearScale)]
      ensures chosenXAxis == old(chosenXAxis) && xLinearScale == old(xLinearScale)
      ensures povertyLabel == old(povertyLabel) && ageLabel == old(ageLabel)
      ensures incomeLabel == old(incomeLabel)
      ensures forall k: YAxis :: YLabelClasses(k).active <==> k == value
    {
      if value != chosenYAxis {
        chosenYAxis := value;
        yLinearScale := YScale(data, chosenYAxis);
        transitions := transitions + [YAxisTransition(yLinearScale)];
        RenderMarkers();
        MarkYLabels();
      }
      OneActivePerGroup();
    }
  }

  /** Any of the nine axis pairs is reached from any other by at most one click per group. */
  method Reach(c: Chart, x: XAxis, y: YAxis)
    requires c.Valid()
    modifies c
    ensures c.Valid() && c.chosenXAxis == x && c.chosenYAxis == y
  {
    c.ClickX(x);
    c.ClickY(y);
  }

  /** Switching the x axis away and back redraws everything as it was: the scale, the markers,
      the texts, the tooltips and the label classes; only two more transitions were started, one to
      the other column's scale and one back to the original scale. */
  method SwitchXAndBack(c: Chart, other: XAxis)
    requires c.Valid()
    modifies c
    ensures c.chosenXAxis == old(c.chosenXAxis) && c.chosenYAxis == old(c.chosenYAxis)
    ensures c.xLinearScale == old(c.xLinearScale) && c.yLinearScale == old(c.yLinearScale)
    ensures c.circles == old(c.circles) && c.circleTexts == old(c.circleTexts)
    ensures c.tooltips == old(c.tooltips)
    ensures forall k: XAxis :: c.XLabelClasses(k) == old(c.XLabelClasses(k))
    ensures forall k: YAxis :: c.YLabelClasses(k) == old(c.YLabelClasses(k))
    ensures |c.transitions| == |old(c.transitions)| + if other == old(c.chosenXAxis) then 0 else 2
    ensures old(c.transitions) <= c.transitions
    ensures other != old(c.chosenXAxis) ==>
      c.transitions == old(c.transitions) + [XAxisTransition(XScale(c.data, other)), XAxisTransition(old(c.xLinearScale))]
  {
    var start := c.chosenXAxis;
    c.ClickX(other);
    c.ClickX(start);
  }
}
