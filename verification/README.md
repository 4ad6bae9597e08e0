# Chart pad core in Dafny

This project models the core of the chart pad web page (`app.js`). The user
pastes comma-separated text and picks a chart type, a theme and a few labels.
The page then does three things:

- `parseData` parses the text into a table: the header names, one label per
  accepted row, and one series of points per value column.
- `renderChart` turns that table into a CanvasJS chart specification.
- `toggleDataSeries` is the legend click handler. It hides or shows a series.

The model follows the program's own structure:

| module | file | what it holds |
|---|---|---|
| `Wrappers` | `wrappers.dfy` | `Option` and `Result` |
| `Text` | `text.dfy` | JavaScript's `trim`, `split` and `join`, and the decimal numeral of a counter |
| `Seqs` | `seqs.dfy` | `filter` and a counter of the elements it drops, plus the indices it keeps |
| `TabularParser` | `parser.dfy` | `parseData`: the spec function `Parse` and the imperative `ParseData` proved equal to it |
| `ParserProperties` | `parser_props.dfy` | what a parse result means, in terms of the input lines |
| `ChartBuilder` | `chart.dfy` | the option defaults, the two palettes and the series building of `renderChart` |
| `ChartProperties` | `chart_props.dfy` | which series are plotted and how they are named and styled, the pie policy, the title defaults |
| `Legend` | `legend.dfy` | `toggleDataSeries` as a method on a class holding the series' visibility flag |

`ParseData`, `WalkDataRows`, `PushRow`, `AddSeries` and `BuildChart` keep the
source's loops, counters and early returns. Each is proved equal to a
function:

- `ParseData` computes `Parse`.
- `WalkDataRows` computes the labels (`LabelsOf`) and columns (`Column`) of
  the rows `Filter` accepts, and its counter is `Count` of the rejected rows.
- `PushRow` appends to series `j` the point of the row's label and
  `Cell(values, j + 1)`.
- `AddSeries` sets the data to `Emitted`, and `BuildChart` computes
  `ChartFor`.

`Filter`, `Count`, `KeptIndices` and `Emitted` recurse from the end of their
input, in the order the loops append. The lemmas in `ParserProperties` and
`ChartProperties` state what these functions mean, directly in terms of the
input: which lines count, which rows are accepted or skipped, which series
and points are plotted, and which names, styles and titles they get.

`parseFloat` is a parameter of type `NumParser`. It maps a trimmed,
non-empty cell to `Some(x)`, or to `None` where JavaScript yields `NaN`.
Every parser property holds for every such function.

## Model

| member | source | states |
|---|---|---|
| `Text.IsSpace` | app.js:48 | the code points `String.prototype.trim` removes: ECMAScript WhiteSpace and LineTerminator |
| `Text.Trim` | app.js:48 | the trimmed text has no white space at either end, and it is empty exactly when the input is all white space |
| `Text.TrimInfix` | app.js:48 | the trim is the infix of the input that remains once the white space at both ends is removed |
| `Text.TrimAbsent` | app.js:55 | trimming introduces no character, so a trimmed piece of a split holds no separator |
| `Text.TrimIdempotent` | app.js:48 | trimming an already trimmed text changes nothing |
| `Text.Split` | app.js:54 | splitting always gives at least one piece, even for empty text |
| `Text.SplitSeparatorFree` | app.js:54 | no piece of a split contains the separator |
| `Text.SplitThenJoin` | app.js:54 | joining the pieces of a split with the separator restores the text |
| `Text.Join` | app.js:148 | the pieces with the separator between each two neighbours (`Array.prototype.join`) |
| `Text.JoinThenSplit` | app.js:148 | splitting a join of separator-free pieces gives the pieces back |
| `Text.SplitCount` | app.js:82-83 | a line has one more field than it has separators |
| `Text.Decimal` | app.js:209 | the numeral of a series number is non-empty, all digits, and starts with 0 only for 0 |
| `Text.DecimalRoundTrip` | app.js:209 | reading back the numeral of `n` gives `n` |
| `Seqs.Filter` | app.js:56 | the filtered sequence is no longer than the input and all its elements satisfy the predicate |
| `Seqs.Count` | app.js:80-92 | how many elements satisfy the predicate; with `Rejecting` it is `skippedRowCount` |
| `Seqs.KeptIndices` | app.js:183 | the kept elements are exactly those at a strictly increasing list of positions, which holds every position whose element satisfies the predicate |
| `Seqs.FilterEmpty` | app.js:184 | nothing is kept exactly when no element satisfies the predicate |
| `Seqs.FilterCountPartition` | app.js:80-92 | the kept rows and the counted skipped rows together account for every data row |
| `TabularParser.Lines` | app.js:54-56 | the lines of the text, each trimmed, with the empty ones dropped |
| `TabularParser.Headers` | app.js:65 | the fields of the header line with the empty ones dropped |
| `TabularParser.Fields` | app.js:82 | every line yields at least one field, so `values[0]` always exists |
| `TabularParser.Verdict` | app.js:83-92 | a row with more fields than headers has too many columns; otherwise a row whose first field is empty has no label; otherwise it is accepted |
| `TabularParser.Cell` | app.js:98-103 | field `k` of a row is absent when it is missing or empty, otherwise what the number parser reads (absent for `NaN`) |
| `TabularParser.Column` | app.js:97-105 | series `j` of the accepted rows: one point per row, with the row's label and the cell of field `j + 1` |
| `TabularParser.TableOf` | app.js:117-121 | the table of the header names, the labels of the accepted rows and one column per header after the first |
| `TabularParser.Parse` | app.js:47-127 | empty text, fewer than two lines, fewer than two header names and no accepted row fail in that order; otherwise the table of the accepted rows and the number of skipped ones |
| `TabularParser.EmptySeries` | app.js:71-77 | before any row is read there is one empty series per value column |
| `TabularParser.DataRowAccepted` | app.js:94-105 | an accepted data line extends the accepted rows by its fields and leaves the skip count alone |
| `TabularParser.DataRowRejected` | app.js:83-92 | a rejected data line leaves the accepted rows alone and adds one to the skip count |
| `TabularParser.AcceptRowStep` | app.js:94-105 | appending one point per series for an accepted row gives the columns of the accepted rows plus that row, and one more label |
| `TabularParser.PushRow` | app.js:97-105 | series `j` gains exactly one point, carrying the row's label and the value of field `j + 1`: absent when that field is missing or empty, otherwise the number read from it |
| `TabularParser.VisitDataRow` | app.js:82-105 | one pass of the row loop takes the labels, series and skip counter for the lines read so far to those for one more line |
| `TabularParser.WalkDataRows` | app.js:71-106 | the labels and series hold exactly the accepted data rows in order, and the skip counter is the number of rejected data rows |
| `TabularParser.ParseData` | app.js:47-127 | the imperative parser returns exactly the failure or the table and skip count that `Parse` describes |
| `ParserProperties.LinesShape` | app.js:54-56 | each line kept is non-empty, trimmed and has no line break |
| `ParserProperties.FieldsShape` | app.js:82 | a line has one more field than it has commas, and each field is trimmed and comma-free |
| `ParserProperties.HeadersShape` | app.js:65 | every header name is non-empty, trimmed and comma-free |
| `ParserProperties.TooManyColumnsByCommas` | app.js:83-92 | a row is skipped for too many columns exactly when it has at least as many commas as there are headers, and it is accepted exactly when it has fewer commas and a non-empty first field |
| `ParserProperties.ParseFailsEarly` | app.js:48-69 | the text is rejected as empty exactly when it is all white space; for too few rows exactly when it has fewer than two non-blank lines; for too few headers exactly when there are two lines but fewer than two non-empty header names |
| `ParserProperties.ParseFailsWithoutRows` | app.js:108-111 | once the header is valid, the parse fails exactly when every data row is rejected |
| `ParserProperties.ParseIgnoresOuterSpace` | app.js:48 | white space around the whole text does not change the parse |
| `ParserProperties.EveryRowAccepted` | app.js:81-121 | when every data line is well formed the parse succeeds with the table of all data lines, in order, and skips none |
| `ParserProperties.TableShape` | app.js:94-105 | the table of accepted rows has one non-empty label per row and one series per value column, each with one point per row, point `i` carrying label `i` |
| `ParserProperties.ParsedTableShape` | app.js:117-121 | a parsed table's headers are the non-empty trimmed comma fields of the first line; it has at least two non-empty headers and one series per header after the first; it has at least one row; every label is non-empty; point `i` of every series carries label `i`; accepted and skipped rows add up to the data lines |
| `ParserProperties.AcceptedLines` | app.js:81-92 | the accepted data lines are exactly those with fewer commas than headers and a non-empty first field, kept in input order |
| `ParserProperties.AcceptedCells` | app.js:94-105 | label `k` is the first field of the `k`-th accepted line; its cell in series `j` is absent when field `j + 1` is missing or empty, otherwise the number read from it |
| `ParserProperties.ParsedRows` | app.js:81-106 | the accepted rows are exactly the data lines with fewer commas than headers and a non-empty first field, in order; each label is its row's first field; each value is read from field `j + 1` when that field is present and non-empty, and is absent otherwise |
| `ChartBuilder.MarkerTypes` | app.js:41 | the five marker names in the source's order |
| `ChartBuilder.LineDashTypes` | app.js:42 | the five dash names as written, "das" third |
| `ChartBuilder.ChartTitle` | app.js:146 | the trimmed title input, or "Data Visualization" when it is blank |
| `ChartBuilder.XAxisTitle` | app.js:147 | the trimmed x-axis input, else the label column's header when it is non-empty, else "Category" |
| `ChartBuilder.YAxisTitle` | app.js:148 | the trimmed y-axis input, else the series headers joined by "/" when there are any, else "Values" |
| `ChartBuilder.BaseOptions` | app.js:155-173 | the theme, the title block, both axes, the shared tool tip and the legend font size, with no data yet |
| `ChartBuilder.IsPieLike` | app.js:177 | the chart type is "pie" or "doughnut" |
| `ChartBuilder.IsLineBased` | app.js:213 | the chart type is "line", "spline" or "area" |
| `ChartBuilder.IsSlice` | app.js:183 | a point is drawn as a slice when its value is present and not zero |
| `ChartBuilder.HasValue` | app.js:203 | a point counts for a series when its value is present |
| `ChartBuilder.HasAnyValue` | app.js:203-204 | a series is plotted when at least one of its points has a value |
| `ChartBuilder.LabelFontColor` | app.js:190 | "#fff" on a theme whose name starts with "dark", "#000" otherwise |
| `ChartBuilder.SeriesName` | app.js:209 | the series' own header when it exists and is non-empty, otherwise "Series n" counting from 1 |
| `ChartBuilder.StyleAt` | app.js:213-222 | marker and dash taken from the palettes at the index modulo 5, marker size 8 and thickness 2 |
| `ChartBuilder.SeriesOptions` | app.js:207-222 | the entry of series `index`: its name, its points that have a value, and for line-like types the palette style at that index |
| `ChartBuilder.Emitted` | app.js:202-234 | one entry per series that has a value, in index order, each built from its own index |
| `ChartBuilder.ChartFor` | app.js:155-240 | pie and doughnut: the slices of the first series without axes and tool tip, or one of two failures; other types: the base options with the emitted entries, or the no-series failure |
| `ChartBuilder.EmittedSnoc` | app.js:202-234 | visiting one more series appends its entry exactly when it has a value |
| `ChartBuilder.AddSeries` | app.js:201-235 | the loop leaves the base options unchanged, sets the data to the entries of the series that have a value, in index order, and counts those entries in `seriesAdded` |
| `ChartBuilder.BuildChart` | app.js:155-240 | the imperative builder returns exactly the failure or the chart specification that `ChartFor` describes |
| `ChartBuilder.RenderChart` | app.js:133-142 | a parse failure stops rendering with that failure; otherwise the outcome is the built chart with the skipped-row count, or the build failure |
| `ChartProperties.EmittedAtKeptIndices` | app.js:202-234 | entry `k` is the one for the `k`-th series that has a value, built from that series' original index |
| `ChartProperties.EmittedSkipsFirst` | app.js:202-234 | of a series without a value followed by one with a value, only the second is emitted, built with index 1 |
| `ChartProperties.HasAnyValueIff` | app.js:203-204 | a series has a value exactly when one of its points is not null |
| `ChartProperties.SeriesChartFails` | app.js:236-239 | a non-pie chart fails, with the no-series error, exactly when no point of any series has a value |
| `ChartProperties.SeriesChart` | app.js:200-230 | a non-pie chart keeps the axes and shared tool tip; entry `k` is named for series `ix[k]`, holds its non-null points in order, and for line, spline and area has marker and dash `ix[k] mod 5`, marker size 8 and thickness 2; other types get no styling |
| `ChartProperties.PieChart` | app.js:177-198 | pie and doughnut fail when the first series is missing or empty, and when all its points are null or zero; they succeed exactly when the first series is non-empty and has a non-null, non-zero point, and then there is one entry holding exactly the non-null, non-zero points in order; the theme, title and legend are the base options'; the axes and tool tip are removed; labels are white exactly on themes starting with "dark" |
| `ChartProperties.ZeroAndNullPolicy` | app.js:183 | a zero is kept as a series value but is not a pie slice; a null is neither |
| `ChartProperties.StylesCycle` | app.js:41-42 | styles repeat every five series, and any five consecutive series differ in both marker and dash |
| `ChartProperties.DefaultYAxisTitle` | app.js:148 | with a blank y-axis input, splitting the y-axis title at "/" gives back the series headers when none contains "/" |
| `ChartProperties.TitlesFromHeaders` | app.js:146-148 | the titles are never empty; blank inputs give "Data Visualization", the label column's header, and a y title that starts with the first series header |
| `ChartProperties.ParsedChartTitles` | app.js:146-148 | for a parsed table the title and both axis titles are non-empty, and the defaults come from its headers |
| `ChartProperties.NamedByHeaders` | app.js:209 | when every series has a non-empty header, each plotted series is named by its own header |
| `ChartProperties.ParsedSeriesNames` | app.js:209 | for a parsed table each plotted series is named by its own header, never by the "Series n" fallback |
| `ChartProperties.NonPieData` | app.js:155-173 | a non-pie chart with at least one emitted entry is the base options (theme, title, axes, tool tip, legend) holding exactly those entries |
| `ChartProperties.SkippedSeriesKeepsStyle` | app.js:213-222 | in a line-like chart of two series where only the second has a value, that series is the only entry and still gets the second style ("square", "dot"), so a skipped series does not shift later styles |
| `Legend.IsShown` | app.js:260 | a series is drawn unless its flag is `false`: an unset flag counts as shown |
| `Legend.Toggled` | app.js:259-265 | after a click the flag is set, and the series is shown exactly when it was hidden before |
| `Legend.ToggleTwice` | app.js:259-265 | two clicks restore whether the series is shown, and restore the flag once it has been set |
| `Legend.DataSeriesState.constructor` | app.js:260 | a series starts without a visibility flag and is shown |
| `Legend.DataSeriesState.ToggleDataSeries` | app.js:259-266 | the handler sets the flag to hidden when the series was shown or unset, and to shown otherwise |
| `Legend.ClickTwice` | app.js:259-265 | clicking a new series twice first hides it, then shows it |

## Left out

- The page itself is not modelled: the DOM, the status messages, the placeholder, `clearStatus`, `showPlaceholder` and the event listeners. Each failure is a `ParseError` or `BuildError` value instead of a status message.
- The `console.warn` diagnostics are not modelled. The non-fatal skipped-row warning is the `skipped` count.
- `localStorage` persistence, `loadSampleData` and `clearAll` are not modelled. They only move text between the page and storage.
- Drawing the chart is outside the model: `new CanvasJS.Chart(...).render()` and the redraw in `toggleDataSeries` call into the chart library. The model ends at the chart specification and the visibility flag. For the same reason `LegendBlock` has no `itemclick` field: the hook that makes the library call `toggleDataSeries` on a legend click is not modelled, and `Legend` models the handler itself.
- `parseFloat` is a parameter (`NumParser`), not a definition of JavaScript number syntax. All parser properties are stated for every such function.
- `parseInt` on the interval and font-size inputs is not modelled: the model takes its result as a given `Option<int>`, where `None` stands for `NaN`.
- The model leaves out option fields that are constant and do not depend on the input: animation, export, padding, label angle, `includeZero`, grid thickness, legend cursor and placement, `showInLegend`, `indexLabel`, `indexLabelPlacement` and `legendText`.
- The `try`/`catch` blocks are not modelled: nothing in the modelled code throws. Neither is the test of the status text for "warning" before the success message, which is only about display.
- Strings are sequences of Unicode code points, not UTF-16 code units. This makes no difference to the comma and line-break splitting or to the trimmed white space set.
- `ChartBuilder.LineDashTypes` keeps the third entry "das" exactly as app.js:42 writes it.
