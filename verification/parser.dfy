/**
 * The tabular parser of the chart pad (`parseData` in app.js): comma-separated
 * text with a header row becomes a table of row labels and one numeric series
 * per value column, or one of four failures. Malformed data rows are skipped
 * and counted instead of failing the parse.
 */
module TabularParser {
  import opened Wrappers
  import opened Text
  import opened Seqs

  /**
   * `parseFloat` applied to a trimmed, non-empty cell: the number it reads, or
   * `None` where JavaScript would produce `NaN`. The model is stated for every
   * such parser.
   */
  type NumParser = string -> Option<real>

  /** One cell of a series: the row's label and its value, `None` for "no data". */
  datatype Point = Point(rowLabel: string, y: Option<real>)

  /**
   * A parsed table: `headers[0]` names the label column, `headers[j + 1]` names
   * `series[j]`; `series[j][i]` is the cell of the `i`-th accepted row.
   */
  datatype Table = Table(headers: seq<string>, labels: seq<string>, series: seq<seq<Point>>)

  /** Why the text could not be parsed into a table. */
  datatype ParseError = EmptyInput | InsufficientRows | InsufficientHeaders | NoValidRows

  /** A table and the number of data rows skipped while building it (the non-fatal warning). */
  datatype Parsed = Parsed(table: Table, skipped: nat)

  /** What happens to one data row, checked in the source's order. */
  datatype RowVerdict = TooManyColumns | MissingLabel | Accepted

  predicate NonBlank(s: string) {
    s != ""
  }

  /** `parts.map(p => p.trim())`. */
  function TrimAll(parts: seq<string>): seq<string> {
    seq(|parts|, k requires 0 <= k < |parts| => Trim(parts[k]))
  }

  /** The trimmed, non-blank lines of a text. */
  function Lines(text: string): seq<string> {
    Filter(TrimAll(Split(text, '\n')), NonBlank)
  }

  /** The trimmed comma-separated fields of a line, empty ones included. */
  function Fields(line: string): (values: seq<string>)
    ensures |values| >= 1
  {
    TrimAll(Split(line, ','))
  }

  /** The header names of the header line: its fields with the empty ones dropped. */
  function Headers(line: string): seq<string> {
    Filter(Fields(line), NonBlank)
  }

  /** The fields of each line. */
  function FieldRows(lines: seq<string>): seq<seq<string>> {
    seq(|lines|, k requires 0 <= k < |lines| => Fields(lines[k]))
  }

  /**
   * A row with more fields than there are headers has too many columns; a
   * row whose first field is empty has no label; any other row is accepted.
   */
  function Verdict(values: seq<string>, headerCount: nat): RowVerdict {
    if |values| > headerCount then TooManyColumns
    else if |values| == 0 || values[0] == "" then MissingLabel
    else Accepted
  }

  function Acceptable(headerCount: nat): seq<string> -> bool {
    values => Verdict(values, headerCount) == Accepted
  }

  function Rejecting(headerCount: nat): seq<string> -> bool {
    values => Verdict(values, headerCount) != Accepted
  }

  /** The label of a row: its first field. */
  function Label(values: seq<string>): string {
    if |values| == 0 then "" else values[0]
  }

  /**
   * The value of field `k` of a row: absent when the field is missing or
   * empty, otherwise whatever the number parser reads (absent for `NaN`).
   */
  function Cell(values: seq<string>, k: nat, num: NumParser): Option<real> {
    if k >= |values| || values[k] == "" then None else num(values[k])
  }

  function LabelsOf(rows: seq<seq<string>>): seq<string> {
    seq(|rows|, i requires 0 <= i < |rows| => Label(rows[i]))
  }

  /** Series `j` of the accepted rows: one point per row, taken from field `j + 1`. */
  function Column(rows: seq<seq<string>>, j: nat, num: NumParser): seq<Point> {
    seq(|rows|, i requires 0 <= i < |rows| => Point(Label(rows[i]), Cell(rows[i], j + 1, num)))
  }

  /** The table built from the header names and the accepted rows. */
  function TableOf(headers: seq<string>, rows: seq<seq<string>>, num: NumParser): Table
    requires |headers| >= 1
  {
    Table(headers, LabelsOf(rows), seq(|headers| - 1, j requires 0 <= j < |headers| - 1 => Column(rows, j, num)))
  }

  /**
   * What `parseData` computes from the input text: the four failures in the
   * order the source checks them, otherwise the table of the accepted data
   * rows together with the number of skipped ones.
   */
  function Parse(text: string, num: NumParser): Result<Parsed, ParseError> {
    var t := Trim(text);
    if t == "" then Failure(EmptyInput)
    else
      var lines := Lines(t);
      if |lines| < 2 then Failure(InsufficientRows)
      else
        var headers := Headers(lines[0]);
        if |headers| < 2 then Failure(InsufficientHeaders)
        else
          var rows := FieldRows(lines[1..]);
          var accepted := Filter(rows, Acceptable(|headers|));
          if |accepted| == 0 then Failure(NoValidRows)
          else Success(Parsed(TableOf(headers, accepted, num), Count(rows, Rejecting(|headers|))))
  }

  lemma FieldRowsSnoc(lines: seq<string>, line: string)
    ensures FieldRows(lines + [line]) == FieldRows(lines) + [Fields(line)]
  {
  }

  /** An accepted data line `i` extends the accepted rows by its fields and leaves the skip count alone. */
  lemma DataRowAccepted(lines: seq<string>, i: nat, h: nat)
    requires 1 <= i < |lines| && Verdict(Fields(lines[i]), h) == Accepted
    ensures Filter(FieldRows(lines[1..i + 1]), Acceptable(h)) == Filter(FieldRows(lines[1..i]), Acceptable(h)) + [Fields(lines[i])]
    ensures Count(FieldRows(lines[1..i + 1]), Rejecting(h)) == Count(FieldRows(lines[1..i]), Rejecting(h))
  {
    SliceSnoc(lines, 1, i);
    FieldRowsSnoc(lines[1..i], lines[i]);
    FilterSnoc(FieldRows(lines[1..i]), Fields(lines[i]), Acceptable(h));
    CountSnoc(FieldRows(lines[1..i]), Fields(lines[i]), Rejecting(h));
  }

  /** A rejected data line `i` leaves the accepted rows alone and adds one to the skip count. */
  lemma DataRowRejected(lines: seq<string>, i: nat, h: nat)
    requires 1 <= i < |lines| && Verdict(Fields(lines[i]), h) != Accepted
    ensures Filter(FieldRows(lines[1..i + 1]), Acceptable(h)) == Filter(FieldRows(lines[1..i]), Acceptable(h))
    ensures Count(FieldRows(lines[1..i + 1]), Rejecting(h)) == Count(FieldRows(lines[1..i]), Rejecting(h)) + 1
  {
    SliceSnoc(lines, 1, i);
    FieldRowsSnoc(lines[1..i], lines[i]);
    FilterSnoc(FieldRows(lines[1..i]), Fields(lines[i]), Acceptable(h));
    CountSnoc(FieldRows(lines[1..i]), Fields(lines[i]), Rejecting(h));
  }

  /** One more accepted row adds one label and one point at the end of every series. */
  lemma ColumnSnoc(rows: seq<seq<string>>, row: seq<string>, j: nat, num: NumParser)
    ensures LabelsOf(rows + [row]) == LabelsOf(rows) + [Label(row)]
    ensures Column(rows + [row], j, num) == Column(rows, j, num) + [Point(Label(row), Cell(row, j + 1, num))]
  {
  }

  /** Appending one point to every column of `accepted` gives the columns of `accepted` plus that row. */
  lemma AcceptRowStep(accepted: seq<seq<string>>, values: seq<string>, seriesData: seq<seq<Point>>,
                      next: seq<seq<Point>>, num: NumParser)
    requires |values| >= 1 && |next| == |seriesData|
    requires forall j :: 0 <= j < |seriesData| ==> seriesData[j] == Column(accepted, j, num)
    requires forall j :: 0 <= j < |next| ==> next[j] == seriesData[j] + [Point(values[0], Cell(values, j + 1, num))]
    ensures forall j :: 0 <= j < |next| ==> next[j] == Column(accepted + [values], j, num)
    ensures LabelsOf(accepted + [values]) == LabelsOf(accepted) + [values[0]]
  {
    forall j | 0 <= j < |next|
      ensures next[j] == Column(accepted + [values], j, num)
    {
      ColumnSnoc(accepted, values, j, num);
    }
    ColumnSnoc(accepted, values, 0, num);
  }

  /**
   * The inner loop of `parseData` for an accepted row: series `j` receives one
   * point carrying the row's label and the value of field `j + 1`.
   */
  method PushRow(seriesData: seq<seq<Point>>, values: seq<string>, num: NumParser)
    returns (next: seq<seq<Point>>)
    requires |values| >= 1
    ensures |next| == |seriesData|
    ensures forall j :: 0 <= j < |next| ==>
      next[j] == seriesData[j] + [Point(values[0], Cell(values, j + 1, num))]
  {
    next := seriesData;
    var j := 0;
    while j < |seriesData|
      invariant 0 <= j <= |seriesData|
      invariant |next| == |seriesData|
      invariant forall jj :: 0 <= jj < j ==> next[jj] == seriesData[jj] + [Point(values[0], Cell(values, jj + 1, num))]
      invariant forall jj :: j <= jj < |seriesData| ==> next[jj] == seriesData[jj]
    {
      var rawValue: Option<string> := if j + 1 < |values| then Some(values[j + 1]) else None;
      var y: Option<real>;
      if rawValue == None || rawValue.value == "" {
        y := None;
      } else {
        y := num(rawValue.value);
      }
      next := next[j := next[j] + [Point(values[0], y)]];
      j := j + 1;
    }
  }

  /** The series array before any row is read: one empty series per value column. */
  method EmptySeries(seriesCount: nat) returns (seriesData: seq<seq<Point>>)
    ensures |seriesData| == seriesCount
    ensures forall j :: 0 <= j < seriesCount ==> seriesData[j] == []
  {
    seriesData := [];
    var j := 0;
    while j < seriesCount
      invariant 0 <= j <= seriesCount
      invariant |seriesData| == j
      invariant forall jj :: 0 <= jj < j ==> seriesData[jj] == []
    {
      seriesData := seriesData + [[]];
      j := j + 1;
    }
  }

  /**
   * One pass of the row loop of `parseData`, for data line `i`: a row with too
   * many fields or an empty first field only increments the skip counter; any
   * other row appends its label and one point to each series. Before and
   * after, the labels, series and counter describe the data lines read so far.
   */
  method VisitDataRow(lines: seq<string>, i: nat, h: nat, num: NumParser,
                      labels: seq<string>, seriesData: seq<seq<Point>>, skippedRowCount: nat,
                      ghost accepted: seq<seq<string>>)
    returns (labels': seq<string>, seriesData': seq<seq<Point>>, skippedRowCount': nat,
             ghost accepted': seq<seq<string>>)
    requires 1 <= i < |lines| && h >= 1
    requires accepted == Filter(FieldRows(lines[1..i]), Acceptable(h))
    requires skippedRowCount == Count(FieldRows(lines[1..i]), Rejecting(h))
    requires labels == LabelsOf(accepted)
    requires |seriesData| == h - 1
    requires forall j :: 0 <= j < h - 1 ==> seriesData[j] == Column(accepted, j, num)
    ensures accepted' == Filter(FieldRows(lines[1..i + 1]), Acceptable(h))
    ensures skippedRowCount' == Count(FieldRows(lines[1..i + 1]), Rejecting(h))
    ensures labels' == LabelsOf(accepted')
    ensures |seriesData'| == h - 1
    ensures forall j :: 0 <= j < h - 1 ==> seriesData'[j] == Column(accepted', j, num)
  {
    labels', seriesData', skippedRowCount', accepted' := labels, seriesData, skippedRowCount, accepted;
    var values := Fields(lines[i]);
    if |values| > h {
      DataRowRejected(lines, i, h);
      skippedRowCount' := skippedRowCount + 1;
      return;
    }
    if values[0] == "" {
      DataRowRejected(lines, i, h);
      skippedRowCount' := skippedRowCount + 1;
      return;
    }
    DataRowAccepted(lines, i, h);
    var rowLabel := values[0];
    labels' := labels + [rowLabel];
    seriesData' := PushRow(seriesData, values, num);
    AcceptRowStep(accepted, values, seriesData, seriesData', num);
    accepted' := accepted + [values];
  }

  /**
   * The row loop of `parseData`: the data lines `lines[1..]` are walked in
   * order; a rejected row only increments the skip counter, an accepted one
   * appends its label and one point to each of the `h - 1` series.
   */
  method WalkDataRows(lines: seq<string>, h: nat, num: NumParser)
    returns (labels: seq<string>, seriesData: seq<seq<Point>>, skippedRowCount: nat)
    requires 1 <= |lines| && h >= 1
    ensures var accepted := Filter(FieldRows(lines[1..]), Acceptable(h));
      && labels == LabelsOf(accepted)
      && |seriesData| == h - 1
      && (forall j :: 0 <= j < h - 1 ==> seriesData[j] == Column(accepted, j, num))
    ensures skippedRowCount == Count(FieldRows(lines[1..]), Rejecting(h))
  {
    var seriesCount := h - 1;
    labels := [];
    seriesData := EmptySeries(seriesCount);

    skippedRowCount := 0;
    ghost var accepted: seq<seq<string>> := [];
    assert FieldRows(lines[1..1]) == [];
    var i := 1;
    while i < |lines|
      invariant 1 <= i <= |lines|
      invariant accepted == Filter(FieldRows(lines[1..i]), Acceptable(h))
      invariant skippedRowCount == Count(FieldRows(lines[1..i]), Rejecting(h))
      invariant labels == LabelsOf(accepted)
      invariant |seriesData| == seriesCount
      invariant forall jj :: 0 <= jj < seriesCount ==> seriesData[jj] == Column(accepted, jj, num)
    {
      labels, seriesData, skippedRowCount, accepted :=
        VisitDataRow(lines, i, h, num, labels, seriesData, skippedRowCount, accepted);
      i := i + 1;
    }
    assert lines[1..i] == lines[1..];
  }

  /**
   * `parseData` (app.js): the four fatal checks in the source's order, then
   * the row loop; the table and the skip count are returned together.
   */
  method ParseData(text: string, num: NumParser) returns (r: Result<Parsed, ParseError>)
    ensures r == Parse(text, num)
  {
    var t := Trim(text);
    if t == "" {
      return Failure(EmptyInput);
    }
    var lines := Lines(t);
    if |lines| < 2 {
      return Failure(InsufficientRows);
    }
    var headers := Headers(lines[0]);
    if |headers| < 2 {
      return Failure(InsufficientHeaders);
    }
    var labels, seriesData, skippedRowCount := WalkDataRows(lines, |headers|, num);
    if |labels| == 0 {
      return Failure(NoValidRows);
    }
    assert seriesData == TableOf(headers, Filter(FieldRows(lines[1..]), Acceptable(|headers|)), num).series;
    r := Success(Parsed(Table(headers, labels, seriesData), skippedRowCount));
  }
}
