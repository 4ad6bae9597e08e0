/**
 * What the chart-spec builder promises, stated about `ChartBuilder.ChartFor`
 * (which `ChartBuilder.BuildChart` is proved to compute): which series are
 * plotted and how they are named and styled, the pie and doughnut policy, and
 * the defaults of the title and axis labels.
 */
module ChartProperties {
  import opened Wrappers
  import opened Text
  import opened Seqs
  import opened TabularParser
  import opened ParserProperties
  import opened ChartBuilder

  /**
   * The emitted entries are those of the series that have a value, in index
   * order, each built from its own original index.
   */
  lemma {:induction false} EmittedAtKeptIndices(chartType: string, headers: seq<string>, series: seq<seq<Point>>)
    ensures var ix := KeptIndices(series, HasAnyValue);
      && |Emitted(chartType, headers, series)| == |ix|
      && forall k :: 0 <= k < |ix| ==>
           Emitted(chartType, headers, series)[k] == SeriesOptions(chartType, headers, ix[k], series[ix[k]])
    decreases |series|
  {
    if series != [] {
      var n := |series| - 1;
      var init := series[..n];
      EmittedAtKeptIndices(chartType, headers, init);
      var ix0 := KeptIndices(init, HasAnyValue);
      var ix := KeptIndices(series, HasAnyValue);
      var e0 := Emitted(chartType, headers, init);
      var e := Emitted(chartType, headers, series);
      var kept := HasAnyValue(series[n]);
      assert ix == ix0 + (if kept then [n] else []);
      assert e == e0 + (if kept then [SeriesOptions(chartType, headers, n, series[n])] else []);
      forall k | 0 <= k < |ix|
        ensures e[k] == SeriesOptions(chartType, headers, ix[k], series[ix[k]])
      {
        if k < |ix0| {
          assert ix[k] == ix0[k] && e[k] == e0[k];
          assert init[ix0[k]] == series[ix0[k]];
        }
      }
    }
  }

  /** A series has a value exactly when one of its points is not null. */
  lemma HasAnyValueIff(points: seq<Point>)
    ensures HasAnyValue(points) <==> exists i :: 0 <= i < |points| && points[i].y.Some?
  {
    FilterEmpty(points, HasValue);
  }

  /**
   * Every type other than pie and doughnut fails exactly when no point of any
   * series has a value, and then with `NoPlottableSeries`.
   */
  lemma SeriesChartFails(table: Table, opts: UserOptions)
    requires !IsPieLike(opts.chartType)
    ensures var r := ChartFor(table, opts);
      && (r.Failure? <==>
            forall j, i :: 0 <= j < |table.series| && 0 <= i < |table.series[j]| ==> table.series[j][i].y == None)
      && (r.Failure? ==> r.error == NoPlottableSeries)
  {
    var series := table.series;
    EmittedAtKeptIndices(opts.chartType, table.headers, series);
    FilterEmpty(series, HasAnyValue);
    forall j | 0 <= j < |series|
      ensures HasAnyValue(series[j]) <==> exists i :: 0 <= i < |series[j]| && series[j][i].y.Some?
    {
      HasAnyValueIff(series[j]);
    }
  }

  /**
   * Every type other than pie and doughnut, when it succeeds: the axes and
   * shared tool tip stay, and entry `k` belongs to the `k`-th series that has
   * a value (at original index `ix[k]`): named from its header, holding its
   * non-null points in order, and for line, spline and area styled by
   * `ix[k] mod 5` from the two palettes with marker size 8 and line
   * thickness 2, while the other types get no styling.
   */
  lemma SeriesChart(table: Table, opts: UserOptions)
    requires !IsPieLike(opts.chartType)
    requires ChartFor(table, opts).Success?
    ensures var c := ChartFor(table, opts).value; var ix := KeptIndices(table.series, HasAnyValue);
      && c.axisX.Some? && c.axisY.Some? && c.toolTip == Some(ToolTip(true))
      && |c.data| == |ix|
      && (forall j :: 0 <= j < |table.series| ==> (j in ix <==> HasAnyValue(table.series[j])))
      && (forall k, l :: 0 <= k < l < |ix| ==> ix[k] < ix[l])
      && forall k :: 0 <= k < |ix| ==>
           && ix[k] < |table.series|
           && c.data[k].Plotted?
           && c.data[k].chartType == opts.chartType
           && c.data[k].name == SeriesName(table.headers, ix[k])
           && c.data[k].points == Filter(table.series[ix[k]], HasValue)
           && c.data[k].style ==
                if IsLineBased(opts.chartType)
                then Some(LineStyle(MarkerTypes[ix[k] % 5], 8, LineDashTypes[ix[k] % 5], 2))
                else None
  {
    var e := Emitted(opts.chartType, table.headers, table.series);
    EmittedAtKeptIndices(opts.chartType, table.headers, table.series);
    assert ChartFor(table, opts).value.data == e;
  }

  /**
   * Pie and doughnut: only the first series is used. The build fails when it
   * is missing or empty, and when all its points are null or zero; it
   * succeeds exactly otherwise, with exactly one entry holding the non-null, non-zero points in order,
   * the theme, title and legend are the base options', the axes and tool tip
   * are removed, and the slice labels are "#fff" exactly on a theme whose
   * name starts with "dark", "#000" otherwise.
   */
  lemma PieChart(table: Table, opts: UserOptions)
    requires IsPieLike(opts.chartType)
    ensures var r := ChartFor(table, opts);
      && (|table.series| == 0 || |table.series[0]| == 0 ==> r == Failure(EmptyFirstSeries))
      && (|table.series| > 0 && |table.series[0]| > 0 ==>
            (r == Failure(NoPlottablePoints) <==>
               forall i :: 0 <= i < |table.series[0]| ==> table.series[0][i].y == None || table.series[0][i].y == Some(0.0)))
    ensures ChartFor(table, opts).Success? <==>
      |table.series| > 0 && |table.series[0]| > 0 && exists i :: 0 <= i < |table.series[0]| && IsSlice(table.series[0][i])
    ensures var r := ChartFor(table, opts);
      r.Success? ==>
        var first := table.series[0]; var ix := KeptIndices(first, IsSlice);
        && r.value == BaseOptions(table, opts).(axisX := None, axisY := None, toolTip := None, data := r.value.data)
        && r.value.axisX == None && r.value.axisY == None && r.value.toolTip == None
        && |r.value.data| == 1
        && r.value.data[0].Slices?
        && r.value.data[0].chartType == opts.chartType
        && r.value.data[0].points == Filter(first, IsSlice)
        && (forall i :: 0 <= i < |first| ==> (i in ix <==> first[i].y != None && first[i].y != Some(0.0)))
        && (r.value.data[0].indexLabelFontColor == "#fff" <==> "dark" <= opts.theme)
        && (r.value.data[0].indexLabelFontColor == "#000" <==> !("dark" <= opts.theme))
  {
    if |table.series| > 0 && |table.series[0]| > 0 {
      FilterEmpty(table.series[0], IsSlice);
    }
  }

  /** Zero is a value for the series filter but not a pie slice; null is neither. */
  lemma ZeroAndNullPolicy(p: Point)
    ensures p.y == Some(0.0) ==> HasValue(p) && !IsSlice(p)
    ensures p.y == None ==> !HasValue(p) && !IsSlice(p)
  {
  }

  /** The styles repeat every five series, and any five consecutive series all differ in marker and dash. */
  lemma StylesCycle(index: nat)
    ensures StyleAt(index + 5) == StyleAt(index)
    ensures forall i, j :: index <= i < j < index + 5 ==>
      StyleAt(i).markerType != StyleAt(j).markerType && StyleAt(i).lineDashType != StyleAt(j).lineDashType
  {
  }

  /**
   * A blank y-axis input makes the y-axis title the series headers joined by
   * "/": splitting it at "/" gives them back when none contains "/".
   */
  lemma DefaultYAxisTitle(opts: UserOptions, headers: seq<string>)
    requires Trim(opts.yAxisLabel) == "" && |headers| >= 2
    requires forall k :: 1 <= k < |headers| ==> '/' !in headers[k]
    ensures Split(YAxisTitle(opts, headers), '/') == headers[1..]
  {
    JoinThenSplit(headers[1..], '/');
  }

  /**
   * With at least two non-empty headers the titles are never empty: a blank
   * title input gives "Data Visualization", a blank x-axis input the label
   * column's header, and a blank y-axis input a title that starts with the
   * first series header.
   */
  lemma TitlesFromHeaders(opts: UserOptions, headers: seq<string>)
    requires |headers| >= 2 && headers[0] != "" && headers[1] != ""
    ensures ChartTitle(opts) != "" && XAxisTitle(opts, headers) != "" && YAxisTitle(opts, headers) != ""
    ensures Trim(opts.title) == "" ==> ChartTitle(opts) == "Data Visualization"
    ensures Trim(opts.xAxisLabel) == "" ==> XAxisTitle(opts, headers) == headers[0]
    ensures Trim(opts.yAxisLabel) == "" ==> headers[1] <= YAxisTitle(opts, headers)
  {
    var parts := headers[1..];
    if |parts| > 1 {
      assert Join(parts, '/') == parts[0] + ['/'] + Join(parts[1..], '/');
    }
  }

  /** For a table the parser produced, the titles obey `TitlesFromHeaders`. */
  lemma ParsedChartTitles(text: string, num: NumParser, opts: UserOptions)
    requires Parse(text, num).Success?
    ensures var t := Parse(text, num).value.table;
      && ChartTitle(opts) != "" && XAxisTitle(opts, t.headers) != "" && YAxisTitle(opts, t.headers) != ""
      && (Trim(opts.xAxisLabel) == "" ==> XAxisTitle(opts, t.headers) == t.headers[0])
      && (Trim(opts.yAxisLabel) == "" ==> t.headers[1] <= YAxisTitle(opts, t.headers))
  {
    var t := Parse(text, num).value.table;
    ParsedTableShape(text, num);
    assert t.headers[0] != "" && t.headers[1] != "";
    TitlesFromHeaders(opts, t.headers);
  }

  /**
   * When there is a header for every series and none is empty, every plotted
   * series of a non-pie chart is named by its own header, never by the
   * "Series n" fallback.
   */
  lemma NamedByHeaders(table: Table, opts: UserOptions)
    requires !IsPieLike(opts.chartType) && ChartFor(table, opts).Success?
    requires |table.series| + 1 == |table.headers|
    requires forall k :: 0 <= k < |table.headers| ==> table.headers[k] != ""
    ensures var c := ChartFor(table, opts).value; var ix := KeptIndices(table.series, HasAnyValue);
      |ix| == |c.data| &&
      forall k :: 0 <= k < |c.data| ==> ix[k] + 1 < |table.headers| && c.data[k].Plotted? && c.data[k].name == table.headers[ix[k] + 1]
  {
    var ix := KeptIndices(table.series, HasAnyValue);
    var e := Emitted(opts.chartType, table.headers, table.series);
    EmittedAtKeptIndices(opts.chartType, table.headers, table.series);
    assert ChartFor(table, opts).value.data == e;
    forall k | 0 <= k < |e|
      ensures ix[k] + 1 < |table.headers| && e[k].Plotted? && e[k].name == table.headers[ix[k] + 1]
    {
      assert e[k] == SeriesOptions(opts.chartType, table.headers, ix[k], table.series[ix[k]]);
    }
  }

  /** A parsed table has one non-empty header more than it has series. */
  lemma ParsedHeaders(text: string, num: NumParser)
    requires Parse(text, num).Success?
    ensures var t := Parse(text, num).value.table;
      |t.series| + 1 == |t.headers| && forall k :: 0 <= k < |t.headers| ==> t.headers[k] != ""
  {
    ParsedTableShape(text, num);
  }

  /** A table the parser produced has a non-empty header for every series, so `NamedByHeaders` applies. */
  lemma ParsedSeriesNames(text: string, num: NumParser, opts: UserOptions)
    requires Parse(text, num).Success?
    requires !IsPieLike(opts.chartType)
    requires ChartFor(Parse(text, num).value.table, opts).Success?
    ensures var t := Parse(text, num).value.table; var c := ChartFor(t, opts).value;
      var ix := KeptIndices(t.series, HasAnyValue);
      |ix| == |c.data| &&
      forall k :: 0 <= k < |c.data| ==> ix[k] + 1 < |t.headers| && c.data[k].Plotted? && c.data[k].name == t.headers[ix[k] + 1]
  {
    ParsedHeaders(text, num);
    NamedByHeaders(Parse(text, num).value.table, opts);
  }

  /** Of a series without a value followed by one with a value, only the second is emitted, at index 1. */
  lemma EmittedSkipsFirst(chartType: string, headers: seq<string>, s0: seq<Point>, s1: seq<Point>)
    requires !HasAnyValue(s0) && HasAnyValue(s1)
    ensures Emitted(chartType, headers, [s0, s1]) == [SeriesOptions(chartType, headers, 1, s1)]
  {
    var series := [s0, s1];
    EmittedSnoc(chartType, headers, series, 0);
    EmittedSnoc(chartType, headers, series, 1);
    assert series[..0] == [] && series[..2] == series;
  }

  /** A non-pie chart with at least one emitted entry is the base options holding those entries. */
  lemma NonPieData(table: Table, opts: UserOptions)
    requires !IsPieLike(opts.chartType) && Emitted(opts.chartType, table.headers, table.series) != []
    ensures ChartFor(table, opts) == Success(BaseOptions(table, opts).(data := Emitted(opts.chartType, table.headers, table.series)))
  {
  }

  /**
   * In a line, spline or area chart of two series where only the second has a
   * value, that series is the only entry and still gets the second style
   * ("square", "dot"): a skipped series does not shift the styles of later ones.
   */
  lemma SkippedSeriesKeepsStyle(headers: seq<string>, labels: seq<string>, s0: seq<Point>, s1: seq<Point>, opts: UserOptions)
    requires IsLineBased(opts.chartType)
    requires forall i :: 0 <= i < |s0| ==> s0[i].y == None
    requires exists i :: 0 <= i < |s1| && s1[i].y.Some?
    ensures var r := ChartFor(Table(headers, labels, [s0, s1]), opts);
      && r.Success?
      && |r.value.data| == 1
      && r.value.data[0].Plotted?
      && r.value.data[0].style == Some(LineStyle("square", 8, "dot", 2))
  {
    HasAnyValueIff(s0);
    HasAnyValueIff(s1);
    EmittedSkipsFirst(opts.chartType, headers, s0, s1);
    NonPieData(Table(headers, labels, [s0, s1]), opts);
  }
}
