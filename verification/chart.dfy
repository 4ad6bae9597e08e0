/**
 * The chart-spec builder of the chart pad (the option defaults and the series
 * construction inside `renderChart` in app.js): a parsed table and the user's
 * choices become the declarative configuration handed to the charting library.
 * Pie and doughnut charts plot the non-null, non-zero points of the first
 * series; every other kind plots each series that has a non-null point, and
 * line-like kinds get a marker and dash style chosen by series index.
 */
module ChartBuilder {
  import opened Wrappers
  import opened Text
  import opened Seqs
  import opened TabularParser

  /** The marker palette, cycled through by series index. */
  const MarkerTypes: seq<string> := ["circle", "square", "triangle", "cross", "diamond"]

  /** The dash palette, cycled through by series index; its third entry is written "das" in the source. */
  const LineDashTypes: seq<string> := ["solid", "dot", "das", "dashDot", "longDash"]

  const LineMarkerSize: nat := 8
  const LineThickness: nat := 2
  const DefaultTitle: string := "Data Visualization"
  const DefaultXAxisTitle: string := "Category"
  const DefaultYAxisTitle: string := "Values"
  const LightLabelColor: string := "#fff"
  const DarkLabelColor: string := "#000"

  /**
   * What the user chose: the chart type and theme as the library names them,
   * the raw title and axis-label inputs, and the numeric inputs as already
   * read by `parseInt` (`None` for `NaN`).
   */
  datatype UserOptions = UserOptions(
    chartType: string,
    theme: string,
    title: string,
    xAxisLabel: string,
    yAxisLabel: string,
    yInterval: Option<int>,
    titleFontSize: Option<int>,
    axisFontSize: Option<int>,
    legendFontSize: Option<int>)

  /** The marker and dash styling of one line-like series. */
  datatype LineStyle = LineStyle(markerType: string, markerSize: nat, lineDashType: string, lineThickness: nat)

  /** One entry of the chart's `data` list. */
  datatype DataSeries =
    | Slices(chartType: string, indexLabelFontColor: string, points: seq<Point>)
    | Plotted(chartType: string, name: string, points: seq<Point>, style: Option<LineStyle>)

  datatype TitleBlock = TitleBlock(text: string, fontSize: Option<int>)
  datatype AxisX = AxisX(title: string, titleFontSize: Option<int>)
  datatype AxisY = AxisY(title: string, titleFontSize: Option<int>, interval: Option<int>)
  datatype ToolTip = ToolTip(shared: bool)
  datatype LegendBlock = LegendBlock(fontSize: Option<int>)

  /** The configuration handed to the charting library; an absent section is one the source deletes. */
  datatype ChartSpec = ChartSpec(
    theme: string,
    title: TitleBlock,
    axisX: Option<AxisX>,
    axisY: Option<AxisY>,
    toolTip: Option<ToolTip>,
    legend: LegendBlock,
    data: seq<DataSeries>)

  /** Why no chart could be built from a parsed table. */
  datatype BuildError = EmptyFirstSeries | NoPlottablePoints | NoPlottableSeries

  predicate IsPieLike(chartType: string) {
    chartType == "pie" || chartType == "doughnut"
  }

  predicate IsLineBased(chartType: string) {
    chartType == "line" || chartType == "spline" || chartType == "area"
  }

  /** The title input, trimmed, or the default title when it is blank. */
  function ChartTitle(opts: UserOptions): string {
    if Trim(opts.title) != "" then Trim(opts.title) else DefaultTitle
  }

  /** The x-axis input, trimmed, else the label column's header, else "Category". */
  function XAxisTitle(opts: UserOptions, headers: seq<string>): string {
    if Trim(opts.xAxisLabel) != "" then Trim(opts.xAxisLabel)
    else if |headers| > 0 && headers[0] != "" then headers[0]
    else DefaultXAxisTitle
  }

  /** The y-axis input, trimmed, else the series headers joined by "/", else "Values". */
  function YAxisTitle(opts: UserOptions, headers: seq<string>): string {
    if Trim(opts.yAxisLabel) != "" then Trim(opts.yAxisLabel)
    else if |headers| > 1 then Join(headers[1..], '/')
    else DefaultYAxisTitle
  }

  /** The base chart options, before any series is added. */
  function BaseOptions(table: Table, opts: UserOptions): ChartSpec {
    ChartSpec(
      opts.theme,
      TitleBlock(ChartTitle(opts), opts.titleFontSize),
      Some(AxisX(XAxisTitle(opts, table.headers), opts.axisFontSize)),
      Some(AxisY(YAxisTitle(opts, table.headers), opts.axisFontSize, opts.yInterval)),
      Some(ToolTip(true)),
      LegendBlock(opts.legendFontSize),
      [])
  }

  /** A point with a value (`dp.y !== null`). */
  predicate HasValue(p: Point) {
    p.y.Some?
  }

  /** A point a pie slice is drawn for: a value other than zero. */
  predicate IsSlice(p: Point) {
    p.y.Some? && p.y.value != 0.0
  }

  /** A series with at least one point that has a value. */
  predicate HasAnyValue(points: seq<Point>) {
    Filter(points, HasValue) != []
  }

  /** The slice label colour: light on themes whose name starts with "dark", dark otherwise. */
  function LabelFontColor(theme: string): string {
    if "dark" <= theme then LightLabelColor else DarkLabelColor
  }

  /** The styling of the series at `index` in a line-like chart. */
  function StyleAt(index: nat): LineStyle {
    LineStyle(MarkerTypes[index % |MarkerTypes|], LineMarkerSize, LineDashTypes[index % |LineDashTypes|], LineThickness)
  }

  /** The legend name of series `index`: its header, or "Series n" counting from 1 when that is missing or empty. */
  function SeriesName(headers: seq<string>, index: nat): string {
    if index + 1 < |headers| && headers[index + 1] != "" then headers[index + 1]
    else "Series " + Decimal(index + 1)
  }

  /** The entry built for the series at `index` when it has a point with a value. */
  function SeriesOptions(chartType: string, headers: seq<string>, index: nat, points: seq<Point>): DataSeries {
    Plotted(chartType, SeriesName(headers, index), Filter(points, HasValue),
      if IsLineBased(chartType) then Some(StyleAt(index)) else None)
  }

  /** The entries built for `series`, in index order, skipping series without any value. */
  function Emitted(chartType: string, headers: seq<string>, series: seq<seq<Point>>): seq<DataSeries> {
    if series == [] then []
    else
      var index := |series| - 1;
      Emitted(chartType, headers, series[..index])
        + (if HasAnyValue(series[index]) then [SeriesOptions(chartType, headers, index, series[index])] else [])
  }

  /**
   * What `renderChart` builds from a parsed table: for pie and doughnut the
   * slices of the first series with the axes and tool tip removed; for every
   * other type the emitted series; each with its failure.
   */
  function ChartFor(table: Table, opts: UserOptions): Result<ChartSpec, BuildError> {
    var base := BaseOptions(table, opts);
    if IsPieLike(opts.chartType) then
      if |table.series| == 0 || |table.series[0]| == 0 then Failure(EmptyFirstSeries)
      else
        var slices := Filter(table.series[0], IsSlice);
        if |slices| == 0 then Failure(NoPlottablePoints)
        else Success(base.(axisX := None, axisY := None, toolTip := None,
                           data := [Slices(opts.chartType, LabelFontColor(opts.theme), slices)]))
    else
      var data := Emitted(opts.chartType, table.headers, table.series);
      if |data| == 0 then Failure(NoPlottableSeries) else Success(base.(data := data))
  }

  /** Emitting for one more series appends its entry exactly when it has a value. */
  lemma EmittedSnoc(chartType: string, headers: seq<string>, series: seq<seq<Point>>, index: nat)
    requires index < |series|
    ensures Emitted(chartType, headers, series[..index + 1])
         == Emitted(chartType, headers, series[..index])
            + (if HasAnyValue(series[index]) then [SeriesOptions(chartType, headers, index, series[index])] else [])
  {
    assert series[..index + 1][..index] == series[..index];
  }

  /**
   * The `forEach` loop of `renderChart` for the non-pie types: each series
   * with a value contributes one entry, in index order, named from its header
   * and, for line-like types, styled from the palettes by its own index;
   * `seriesAdded` counts the entries.
   */
  method AddSeries(table: Table, selectedChartType: string, base: ChartSpec)
    returns (chartOptions: ChartSpec, seriesAdded: nat)
    requires base.data == []
    ensures chartOptions == base.(data := Emitted(selectedChartType, table.headers, table.series))
    ensures seriesAdded == |chartOptions.data|
  {
    chartOptions := base;
    seriesAdded := 0;
    var index := 0;
    while index < |table.series|
      invariant 0 <= index <= |table.series|
      invariant chartOptions == base.(data := Emitted(selectedChartType, table.headers, table.series[..index]))
      invariant seriesAdded == |chartOptions.data|
    {
      EmittedSnoc(selectedChartType, table.headers, table.series, index);
      var seriesPoints := table.series[index];
      var validDataPoints := Filter(seriesPoints, HasValue);
      if |validDataPoints| > 0 {
        var seriesOptions := Plotted(selectedChartType, SeriesName(table.headers, index), validDataPoints, None);
        var isLineBased := selectedChartType == "line" || selectedChartType == "spline" || selectedChartType == "area";
        if isLineBased {
          var markerIndex := index % |MarkerTypes|;
          var dashIndex := index % |LineDashTypes|;
          seriesOptions := seriesOptions.(style := Some(LineStyle(MarkerTypes[markerIndex], LineMarkerSize,
                                                                  LineDashTypes[dashIndex], LineThickness)));
        }
        chartOptions := chartOptions.(data := chartOptions.data + [seriesOptions]);
        seriesAdded := seriesAdded + 1;
      }
      index := index + 1;
    }
    assert table.series[..index] == table.series;
  }

  /**
   * The chart-building part of `renderChart` (app.js): the base options are
   * filled in, then either the pie branch pushes one entry and deletes the
   * axes and tool tip, or the loop over the series pushes one entry per
   * series that has a value and counts them.
   */
  method BuildChart(table: Table, opts: UserOptions) returns (r: Result<ChartSpec, BuildError>)
    ensures r == ChartFor(table, opts)
  {
    var chartOptions := BaseOptions(table, opts);
    var selectedChartType := opts.chartType;
    if selectedChartType == "pie" || selectedChartType == "doughnut" {
      if |table.series| == 0 || |table.series[0]| == 0 {
        return Failure(EmptyFirstSeries);
      }
      var firstSeries := table.series[0];
      var dataPoints := Filter(firstSeries, IsSlice);
      if |dataPoints| == 0 {
        return Failure(NoPlottablePoints);
      }
      var color := if "dark" <= opts.theme then LightLabelColor else DarkLabelColor;
      chartOptions := chartOptions.(data := chartOptions.data + [Slices(selectedChartType, color, dataPoints)]);
      chartOptions := chartOptions.(axisX := None, axisY := None);
      chartOptions := chartOptions.(toolTip := None);
      assert chartOptions.data == [Slices(selectedChartType, LabelFontColor(opts.theme), dataPoints)];
    } else {
      var seriesAdded;
      chartOptions, seriesAdded := AddSeries(table, selectedChartType, chartOptions);
      if seriesAdded == 0 {
        return Failure(NoPlottableSeries);
      }
    }
    r := Success(chartOptions);
  }

  /** The result of one render request: a chart with the skipped-row warning count, or the failure that stopped it. */
  datatype RenderOutcome =
    | Rendered(chart: ChartSpec, skippedRows: nat)
    | ParseFailed(parseError: ParseError)
    | BuildFailed(buildError: BuildError)

  /**
   * `renderChart` (app.js) without its display side effects: parse the text,
   * stop on a parse failure, otherwise build the chart from the table.
   */
  method RenderChart(text: string, num: NumParser, opts: UserOptions) returns (outcome: RenderOutcome)
    ensures Parse(text, num).Failure? ==> outcome == ParseFailed(Parse(text, num).error)
    ensures Parse(text, num).Success? ==>
      var p := Parse(text, num).value;
      outcome == match ChartFor(p.table, opts)
        case Success(chart) => Rendered(chart, p.skipped)
        case Failure(e) => BuildFailed(e)
  {
    var parsedData := ParseData(text, num);
    if parsedData.Failure? {
      return ParseFailed(parsedData.error);
    }
    var built := BuildChart(parsedData.value.table, opts);
    match built {
      case Success(chart) => outcome := Rendered(chart, parsedData.value.skipped);
      case Failure(e) => outcome := BuildFailed(e);
    }
  }
}
