# Axis selection for the health-risk scatter plot

This project models the logic in `assets/js/app.js`. That file draws a scatter plot of US states. The x axis is one of poverty rate, median age or median household income. The y axis is one of the share without healthcare, the share of smokers or the share with obesity. Clicking an axis label switches that axis.

The model covers:

- the two padded linear scales built from the chosen columns (`xScale`, `yScale`);
- where each state's marker and its text are placed (`renderCircles`, `renderCircleTexts`);
- the tooltip's label lookups and its text (`updateToolTip`);
- the selection controller. It holds the chosen x and y columns. On a click of a label that is not already chosen, it rebuilds the scale of that axis, moves the markers, rebuilds the tooltips and sets the `active`/`inactive` classes of that axis's three labels. A click on the chosen label does nothing.

Modules, one per concern:

- `Health` (health.dfy): a record of the data set, and the x and y choices as datatypes. Each choice has its label's `value` attribute and the column it selects.
- `Scales` (scales.dfy): the plot size from the SVG size and margins, `d3.min`/`d3.max`, the padded domain, and the linear map with its laws.
- `Markers` (markers.dfy): marker and text positions and what they guarantee about the drawing.
- `Tooltip` (tooltip.dfy): the label lookups, the tooltip string, and a proof that the string can be read back.
- `Selection` (selection.dfy): the `Chart` class and its click handlers. Its fields stand for the module-level choices (lines 31-32), the scales the async function keeps in `let` variables (lines 169-170), the marker, text and tooltip state of the drawn selections, the six label classes, and a log of axis transitions.

Behaviour as the code has it:

- The x lookup gives "Poverty:" and "Income:" for their own values and "Age:" for everything else. The y lookup gives "No Healthcare:" and "Smokers:" for their own values and "Obesity:" for everything else. The y lookup uses `==` rather than `===`, which is the same thing on two strings.
- The x click handler tests poverty, then age, then falls back to income. The y click handler tests obesity, then smokes, then falls back to healthcare. Both orders are kept.
- Padding moves the domain ends, not the data. For a positive minimum, the smallest value is not drawn at the edge of the range, only the domain end `0.8 * min` is (`ScaleEnds`). A minimum of 0 equals `0.8 * min` and is drawn at the edge, unless every value is 0: the domain then collapses and the value is drawn in the middle of the range.
- The padded domain holds every value only when the data are non-negative. With negative values, `0.8 * min` lies above the minimum (`NegativeDataEscapesDomain`). Rates, ages and incomes are non-negative, so the lemmas about the drawn chart assume this.
- An empty data set makes `d3.min` undefined. The code does not guard against it, so the model requires a non-empty data set.
- `d3.scaleLinear` is a library function. It is modelled as linear interpolation. A collapsed domain (`d0 == d1`) is taken to map to the middle of the range. This is an assumption about d3-scale, whose version the repository does not pin. Values outside the domain are extrapolated, not clamped, which is d3's default.

## Model

| member | source | states |
|---|---|---|
| `Health.XAxis.Value` | assets/js/app.js:214-232 | Definition, no contract: the `value` attribute of each x label, "poverty", "age" or "income". |
| `Health.YAxis.Value` | assets/js/app.js:244-264 | Definition, no contract: the `value` attribute of each y label, "healthcare", "smokes" or "obesity". |
| `Health.XAxis.Of` | assets/js/app.js:38 | Definition, no contract: the keyed access `d[chosenXAxis]`, the record's poverty, age or income. Every scale, marker and tooltip formula reads the x column through it (also lines 84, 95 and 136). |
| `Health.YAxis.Of` | assets/js/app.js:49 | Definition, no contract: the keyed access `d[chosenYAxis]`, the record's healthcare, smokes or obesity value. Every scale, marker and tooltip formula reads the y column through it (also lines 85, 96 and 136). |
| `Health.XColumn` | assets/js/app.js:38-39 | The x column that `d3.min`/`d3.max` scan through their accessor has exactly one value per record, so its length is the number of records. |
| `Health.YColumn` | assets/js/app.js:49-50 | The y column that `d3.min`/`d3.max` scan through their accessor has exactly one value per record, so its length is the number of records. |
| `Health.ValueIdentifiesAxis` | assets/js/app.js:273-281 | Two labels of a group have equal `value` attributes only if they are the same label. So the handler's string comparison `value !== chosenXAxis` is a comparison of choices. |
| `Scales.MinOf` | assets/js/app.js:38 | `d3.min` of a non-empty column is one of its values and is at most every value. |
| `Scales.MaxOf` | assets/js/app.js:39 | `d3.max` of a non-empty column is one of its values and is at least every value. |
| `Scales.PaddedDomain` | assets/js/app.js:38-39 | Definition, no contract: `[d3.min * 0.8, d3.max * 1.2]` of a non-empty column. Its properties are `PaddingLaw` and `DomainCoversData`. |
| `Scales.Apply` | assets/js/app.js:37-40 | Definition, no contract: linear interpolation from the domain onto the range, with a collapsed domain sent to the middle of the range. Its properties are `ScaleEnds`, `ScaleWithin` and `ScaleMonotone`. |
| `Scales.PaddingLaw` | assets/js/app.js:38-39 | The domain's lower end is 0.8 times some value and at most 0.8 times every value. The upper end is 1.2 times some value and at least 1.2 times every value. |
| `Scales.XScale` | assets/js/app.js:35-43 | The x scale's domain is the padded domain of the chosen column. Its range is [0, 820], where 820 = 960 - 100 - 40 (lines 2-13). |
| `Scales.YScale` | assets/js/app.js:46-54 | The y scale's domain is the padded domain of the chosen column. Its range is the inverted [400, 0], where 400 = 500 - 20 - 80 (lines 3-14). |
| `Scales.DomainCoversData` | assets/js/app.js:38-39 | Over non-negative data the padded domain is a proper interval (`d0 <= d1`) that holds every value of the column. |
| `Scales.NegativeDataEscapesDomain` | assets/js/app.js:38-39 | For the column [-10, -1] the padded domain is [-8, -1.2], which leaves out -10. |
| `Scales.ScaleEnds` | assets/js/app.js:37-40 | For a domain that has not collapsed to a point, a scale maps the domain's lower end to the range start and its upper end to the range end. |
| `Scales.ScaleWithin` | assets/js/app.js:48-51 | A value inside the domain is mapped inside the range, whether the range runs up (x) or down (y). |
| `Scales.ScaleMonotone` | assets/js/app.js:37-40 | Over an increasing domain, a scale keeps the order of values onto an increasing range and reverses it onto a decreasing one. |
| `Scales.TwoStateScenario` | assets/js/app.js:169-170 | Two states with poverty 10 and 20 and healthcare 5 and 15 give an x domain of [8, 24] and a y domain of [4, 18]. Their markers sit at x = 102.5 and 615, and at y = 2600/7 and 600/7. |
| `Markers.CircleAt` | assets/js/app.js:84-85 | Definition, no contract: a marker's centre is the x scale applied to the record's x column and the y scale applied to its y column. |
| `Markers.CirclePositions` | assets/js/app.js:80-88 | There is one marker centre per record. |
| `Markers.TextPositions` | assets/js/app.js:91-99 | There is one text position per record. |
| `Markers.TextsFollowCircles` | assets/js/app.js:95-96 | Every state's text is at its marker's x and 5 pixels below its marker's centre. |
| `Markers.PositionsFollowRecords` | assets/js/app.js:188-205 | Each position depends on its own record alone. Placing two data sets one after the other gives their positions one after the other, so positions follow data set order. |
| `Markers.MarkersInPlotArea` | assets/js/app.js:193-194 | Over non-negative data, every marker built with the chosen columns' scales lies inside the 820 x 400 plot area. |
| `Markers.MarkersKeepOrder` | assets/js/app.js:84-85 | Over non-negative data, a larger x value is drawn no further left, and a larger y value is drawn no lower. |
| `Tooltip.XLabel` | assets/js/app.js:110-118 | "Poverty:" is returned exactly for "poverty" and "Income:" exactly for "income". Every other string, age included, gets "Age:". |
| `Tooltip.YLabel` | assets/js/app.js:121-129 | "No Healthcare:" is returned exactly for "healthcare" and "Smokers:" exactly for "smokes". Every other string, obesity included, gets "Obesity:". |
| `Tooltip.LabelsIdentifyAxes` | assets/js/app.js:110-129 | Different choices of one axis get different tooltip labels. |
| `Tooltip.TooltipHtml` | assets/js/app.js:136 | Definition, no contract: the state's name, the x label and value with `%`, and the y label and value with `%`, joined by `<br>`. It is read back by `TooltipLines` and shown on an example by `TooltipExample`. |
| `Tooltip.Tooltips` | assets/js/app.js:135-137 | There is one tooltip per record. |
| `Tooltip.TooltipLines` | assets/js/app.js:136 | Cut at each `<`, a tooltip reads back as three parts: the state's name, then `br>` with the x label and value and `%`, then the same for y. This holds when the name and printed numbers contain no `<`. |
| `Tooltip.TooltipExample` | assets/js/app.js:136 | A state with poverty 19.1 and healthcare 11.2, under the initial axes, gets `name<br>Poverty: 19.1%<br>No Healthcare: 11.2%`. |
| `Selection.Chart.Valid` | assets/js/app.js:169-206 | Definition, no contract: a chart is consistent when its scales are built from the chosen columns, its markers, texts and tooltips come from those scales and choices, and exactly the chosen label of each group is active. |
| `Selection.Chart.MarkersAgree` | assets/js/app.js:188-206 | Definition, no contract: the markers, their texts and the tooltips are the ones drawn from the current scales and choices. It is part of `Valid`. |
| `Selection.Chart.OneActivePerGroup` | assets/js/app.js:301-333 | Whenever the label classes agree with the choices, as in every consistent chart (`Valid`), every label is active or inactive but never both. In each group, exactly the chosen label is active. |
| `Selection.Chart.constructor` | assets/js/app.js:169-270 | The first drawing is poverty against healthcare. The poverty and healthcare labels are active and the other four are inactive. Scales, markers, texts and tooltips come from those two columns, and no transition has started. |
| `Selection.Chart.RenderMarkers` | assets/js/app.js:292-298 | Markers, texts and tooltips are recomputed from the current scales and choices. Nothing else changes. |
| `Selection.Chart.MarkXLabels` | assets/js/app.js:301-333 | The chosen x label becomes active and the other two inactive. Only the three x labels change. |
| `Selection.Chart.MarkYLabels` | assets/js/app.js:365-397 | The chosen y label becomes active and the other two inactive, testing obesity first and smokes second. Only the three y labels change. |
| `Selection.Chart.ClickX` | assets/js/app.js:273-335 | Clicking the chosen x label changes nothing. Another x label becomes the choice: only the x scale is rebuilt and one x-axis transition starts. The y choice, y scale and y labels are untouched. The chart stays consistent (`Valid`), with exactly the clicked x label active. |
| `Selection.Chart.ClickY` | assets/js/app.js:337-399 | The mirror of `ClickX` for the y labels. The x choice, x scale and x labels are untouched. |
| `Selection.Reach` | assets/js/app.js:278-281 | Any of the nine axis pairs can be reached from any consistent state (`Valid`) with one click per group. |
| `Selection.SwitchXAndBack` | assets/js/app.js:278-298 | Switching x away and back restores the choices, both scales, all markers, texts and tooltips, and all six label classes. The log only grows: it gains the transition to the other column's scale and the one back to the original scale, or nothing if the first click was on the chosen label. |

## Left out

- Loading the CSV file and the async wrapper around it (lines 153-155) are I/O. The model takes the loaded data set as a parameter.
- The unary `+` conversion of the six columns in the `forEach` loop (lines 158-165) is left out. Records are already numeric, and the text-to-number parsing and its NaN on bad input are not modelled.
- SVG creation, axis drawing (`renderXAxes`/`renderYAxes` and the d3 axis generators), the 1000 ms transitions, label texts and their positions, the marker radius, and the text content of each marker, the state abbreviation (`.text(d => d.abbr)`, line 206), are rendering. An axis redraw is recorded only as an entry in the `transitions` log. Overlapping transitions from rapid clicks are not modelled.
- The d3-tip object, its offset and the `mouseover`/`mouseout` binding (lines 132-147) are left out. Only each marker's tooltip text is modelled.
- `console.log` calls are left out.
- Floating point is replaced by real arithmetic, both for `* 0.8`/`* 1.2` and for the scale interpolation.
- JavaScript's number-to-text conversion inside the template string is the parameter `show`.
- Only the internals of `d3.scaleLinear` used here are modelled, as described above. Clamping, ticks and inversion are not.
- Scales.XScale: requires a non-empty data set, because the source yields NaN bounds for an empty one. Scales.YScale has the same requirement for the same reason.
- Markers.CirclePositions: the contract states only one position per record. The placement rule `(x(r[chosenX]), y(r[chosenY]))` is its definition, and the lemmas state what it implies.
- Markers.TextPositions: the contract states only one position per record. Its relation to the markers is `TextsFollowCircles`.
- Tooltip.Tooltips: the contract states only one tooltip per record. The content is `TooltipHtml`, read back by `TooltipLines`.
- Selection.Chart.ClickX: the handler is only attached to the three x labels, so the clicked value is one of the three choices. Any other attribute string cannot occur and is not modelled. Selection.Chart.ClickY is the same for the y labels.
