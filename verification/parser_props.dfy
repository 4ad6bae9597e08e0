/**
 * What `parseData` promises, stated about the specification `TabularParser.Parse`
 * (which `TabularParser.ParseData` is proved to compute): the failure taxonomy,
 * the shape of the table, the skip rule with input order, and absent cells.
 */
module ParserProperties {
  import opened Wrappers
  import opened Text
  import opened Seqs
  import opened TabularParser

  /** Every line is non-empty, free of newlines and already trimmed. */
  lemma LinesShape(text: string)
    ensures forall k :: 0 <= k < |Lines(text)| ==>
      Lines(text)[k] != "" && '\n' !in Lines(text)[k] && Trimmed(Lines(text)[k])
  {
    var pieces := Split(text, '\n');
    SplitSeparatorFree(text, '\n');
    var trimmed := TrimAll(pieces);
    var ix := KeptIndices(trimmed, NonBlank);
    forall k | 0 <= k < |Lines(text)|
      ensures Lines(text)[k] != "" && '\n' !in Lines(text)[k] && Trimmed(Lines(text)[k])
    {
      var i := ix[k];
      TrimAbsent(pieces[i], '\n');
    }
  }

  /**
   * The fields of a line are trimmed and comma-free, and there is one more
   * field than the line has commas.
   */
  lemma FieldsShape(line: string)
    ensures |Fields(line)| == multiset(line)[','] + 1
    ensures forall k :: 0 <= k < |Fields(line)| ==>
      ',' !in Fields(line)[k] && Trimmed(Fields(line)[k])
  {
    var pieces := Split(line, ',');
    SplitSeparatorFree(line, ',');
    SplitCount(line, ',');
    forall k | 0 <= k < |Fields(line)|
      ensures ',' !in Fields(line)[k] && Trimmed(Fields(line)[k])
    {
      TrimAbsent(pieces[k], ',');
    }
  }

  /** Header names are non-empty, trimmed and comma-free; there are at most commas + 1 of them. */
  lemma HeadersShape(line: string)
    ensures |Headers(line)| <= multiset(line)[','] + 1
    ensures forall k :: 0 <= k < |Headers(line)| ==>
      Headers(line)[k] != "" && ',' !in Headers(line)[k] && Trimmed(Headers(line)[k])
  {
    FieldsShape(line);
    var ix := KeptIndices(Fields(line), NonBlank);
    forall k | 0 <= k < |Headers(line)|
      ensures Headers(line)[k] != "" && ',' !in Headers(line)[k] && Trimmed(Headers(line)[k])
    {
      assert Headers(line)[k] == Fields(line)[ix[k]];
    }
  }

  /** A row has too many columns exactly when its line holds at least as many commas as there are headers. */
  lemma TooManyColumnsByCommas(line: string, h: nat)
    ensures Verdict(Fields(line), h) == TooManyColumns <==> multiset(line)[','] >= h
    ensures Verdict(Fields(line), h) == Accepted <==> multiset(line)[','] < h && Fields(line)[0] != ""
  {
    FieldsShape(line);
  }

  /**
   * The first three failures: the text is all white space; it has fewer than
   * two non-blank lines; the header line has fewer than two non-empty names.
   */
  lemma ParseFailsEarly(text: string, num: NumParser)
    ensures Parse(text, num) == Failure(EmptyInput) <==> forall k :: 0 <= k < |text| ==> IsSpace(text[k])
    ensures var lines := Lines(Trim(text));
      Parse(text, num) == Failure(InsufficientRows) <==> Trim(text) != "" && |lines| < 2
    ensures var lines := Lines(Trim(text));
      Parse(text, num) == Failure(InsufficientHeaders) <==>
        Trim(text) != "" && |lines| >= 2 && |Headers(lines[0])| < 2
  {
  }

  /** No data row is accepted exactly when every data line is skipped. */
  lemma NoneAccepted(lines: seq<string>, h: nat)
    requires |lines| >= 1
    ensures |Filter(FieldRows(lines[1..]), Acceptable(h))| == 0 <==>
      forall i :: 1 <= i < |lines| ==> Verdict(Fields(lines[i]), h) != Accepted
  {
    var rows := FieldRows(lines[1..]);
    FilterEmpty(rows, Acceptable(h));
    forall i | 1 <= i < |lines| ensures rows[i - 1] == Fields(lines[i]) { }
  }

  /** The last failure: no data line is accepted, every one of them being skipped. */
  lemma ParseFailsWithoutRows(text: string, num: NumParser)
    ensures var lines := Lines(Trim(text));
      Parse(text, num) == Failure(NoValidRows) <==>
        && Trim(text) != "" && |lines| >= 2 && |Headers(lines[0])| >= 2
        && forall i :: 1 <= i < |lines| ==> Verdict(Fields(lines[i]), |Headers(lines[0])|) != Accepted
  {
    var lines := Lines(Trim(text));
    if |lines| >= 1 {
      NoneAccepted(lines, |Headers(lines[0])|);
    }
  }

  /** The empty text has no non-blank line. */
  lemma NoLinesInEmptyText()
    ensures Lines("") == []
  {
    assert Split("", '\n') == [""];
  }

  /** White space around the whole text makes no difference: the parser trims it first. */
  lemma ParseIgnoresOuterSpace(text: string, num: NumParser)
    ensures Parse(Trim(text), num) == Parse(text, num)
  {
    TrimIdempotent(text);
  }

  /**
   * A text whose data lines are all well formed is parsed into the table of
   * every data line, in order, and nothing is skipped.
   */
  lemma EveryRowAccepted(text: string, num: NumParser)
    requires |Lines(Trim(text))| >= 2
    requires |Headers(Lines(Trim(text))[0])| >= 2
    requires forall i :: 1 <= i < |Lines(Trim(text))| ==>
      Verdict(Fields(Lines(Trim(text))[i]), |Headers(Lines(Trim(text))[0])|) == Accepted
    ensures Parse(text, num).Success?
    ensures var lines := Lines(Trim(text)); var headers := Headers(lines[0]);
      Parse(text, num).value == Parsed(TableOf(headers, FieldRows(lines[1..]), num), 0)
  {
    var lines := Lines(Trim(text));
    var headers := Headers(lines[0]);
    var h := |headers|;
    var rows := FieldRows(lines[1..]);
    NoLinesInEmptyText();
    forall i | 0 <= i < |rows| ensures Acceptable(h)(rows[i]) {
      assert rows[i] == Fields(lines[i + 1]);
    }
    FilterAll(rows, Acceptable(h));
    FilterCountPartition(rows, Acceptable(h), Rejecting(h));
  }

  /**
   * A successful parse is the table of the header names and the accepted data
   * rows, with the rejected ones counted; at least one row is accepted.
   */
  lemma ParsedFrom(text: string, num: NumParser)
    requires Parse(text, num).Success?
    ensures |Lines(Trim(text))| >= 2
    ensures var lines := Lines(Trim(text)); var headers := Headers(lines[0]); var rows := FieldRows(lines[1..]);
      && |headers| >= 2
      && |Filter(rows, Acceptable(|headers|))| >= 1
      && Parse(text, num).value
         == Parsed(TableOf(headers, Filter(rows, Acceptable(|headers|)), num), Count(rows, Rejecting(|headers|)))
  {
  }

  /**
   * The table of accepted rows has one non-empty label per row and
   * `headers.length - 1` series, each with one point per row, point `i`
   * carrying label `i`.
   */
  lemma TableShape(headers: seq<string>, rows: seq<seq<string>>, num: NumParser)
    requires |headers| >= 1
    requires forall i :: 0 <= i < |rows| ==> Verdict(rows[i], |headers|) == Accepted
    ensures var t := TableOf(headers, rows, num);
      && |t.labels| == |rows|
      && (forall i :: 0 <= i < |t.labels| ==> t.labels[i] != "")
      && |t.series| == |headers| - 1
      && (forall j :: 0 <= j < |t.series| ==> |t.series[j]| == |rows|)
      && (forall j, i :: 0 <= j < |t.series| && 0 <= i < |rows| ==> t.series[j][i].rowLabel == t.labels[i])
  {
  }

  /**
   * A successful parse has at least two header names, all non-empty; at
   * least one label, all non-empty; `headers.length - 1` series, each with one
   * point per label, point `i` carrying label `i`; and accepted plus skipped
   * rows make up every non-blank line after the header.
   */
  lemma ParsedTableShape(text: string, num: NumParser)
    requires Parse(text, num).Success?
    ensures |Lines(Trim(text))| >= 2
    ensures var p := Parse(text, num).value; var t := p.table;
      && t.headers == Headers(Lines(Trim(text))[0])
      && |t.headers| >= 2
      && (forall k :: 0 <= k < |t.headers| ==>
            t.headers[k] != "" && ',' !in t.headers[k] && Trimmed(t.headers[k]))
      && |t.labels| >= 1
      && (forall i :: 0 <= i < |t.labels| ==> t.labels[i] != "")
      && |t.series| == |t.headers| - 1
      && (forall j :: 0 <= j < |t.series| ==> |t.series[j]| == |t.labels|)
      && (forall j, i :: 0 <= j < |t.series| && 0 <= i < |t.labels| ==> t.series[j][i].rowLabel == t.labels[i])
      && |t.labels| + p.skipped == |Lines(Trim(text))| - 1
  {
    ParsedFrom(text, num);
    var lines := Lines(Trim(text));
    var headers := Headers(lines[0]);
    var h := |headers|;
    var rows := FieldRows(lines[1..]);
    var accepted := Filter(rows, Acceptable(h));
    HeadersShape(lines[0]);
    FilterCountPartition(rows, Acceptable(h), Rejecting(h));
    forall i | 0 <= i < |accepted| ensures Verdict(accepted[i], h) == Accepted {
      assert Acceptable(h)(accepted[i]);
    }
    TableShape(headers, accepted, num);
  }

  /**
   * The skip rule and input order: the accepted data lines are exactly those
   * with fewer commas than there are headers and a non-empty first field, and
   * they are kept in input order.
   */
  lemma AcceptedLines(data: seq<string>, h: nat)
    ensures var ix := KeptIndices(FieldRows(data), Acceptable(h));
      && (forall k, l :: 0 <= k < l < |ix| ==> ix[k] < ix[l])
      && (forall i :: 0 <= i < |data| ==>
            (i in ix <==> multiset(data[i])[','] < h && Fields(data[i])[0] != ""))
  {
    var rows := FieldRows(data);
    var ix := KeptIndices(rows, Acceptable(h));
    forall i | 0 <= i < |data|
      ensures i in ix <==> multiset(data[i])[','] < h && Fields(data[i])[0] != ""
    {
      assert rows[i] == Fields(data[i]);
      TooManyColumnsByCommas(data[i], h);
    }
  }

  /**
   * The cells of the table of the accepted data lines: label `k` is the first
   * field of the `k`-th accepted line, and its cell in series `j` is absent
   * when field `j + 1` is missing or empty, otherwise it is what the number
   * parser reads.
   */
  lemma AcceptedCells(data: seq<string>, headers: seq<string>, num: NumParser)
    requires |headers| >= 1
    ensures var h := |headers|; var rows := FieldRows(data); var ix := KeptIndices(rows, Acceptable(h));
      var t := TableOf(headers, Filter(rows, Acceptable(h)), num);
      && |t.labels| == |ix| && |t.series| == h - 1
      && (forall j :: 0 <= j < h - 1 ==> |t.series[j]| == |ix|)
      && (forall k :: 0 <= k < |ix| ==> ix[k] < |data| && t.labels[k] == Fields(data[ix[k]])[0])
      && (forall j, k :: 0 <= j < h - 1 && 0 <= k < |ix| ==>
            var f := Fields(data[ix[k]]);
            t.series[j][k].y == (if j + 1 < |f| && f[j + 1] != "" then num(f[j + 1]) else None))
  {
    var h := |headers|;
    var rows := FieldRows(data);
    var accepted := Filter(rows, Acceptable(h));
    var ix := KeptIndices(rows, Acceptable(h));
    var t := TableOf(headers, accepted, num);
    forall k | 0 <= k < |ix|
      ensures accepted[k] == Fields(data[ix[k]])
    {
      assert rows[ix[k]] == Fields(data[ix[k]]);
    }
  }

  /**
   * The skip rule, input order and cells of a successful parse:
   * `AcceptedLines` and `AcceptedCells` for the data lines after the header
   * line.
   */
  lemma ParsedRows(text: string, num: NumParser)
    requires Parse(text, num).Success?
    ensures |Lines(Trim(text))| >= 2
    ensures var lines := Lines(Trim(text));
      var t := Parse(text, num).value.table; var h := |t.headers|; var data := lines[1..];
      var ix := KeptIndices(FieldRows(data), Acceptable(h));
      && |t.labels| == |ix| && |t.series| == h - 1
      && (forall j :: 0 <= j < h - 1 ==> |t.series[j]| == |ix|)
      && (forall k, l :: 0 <= k < l < |ix| ==> ix[k] < ix[l])
      && (forall i :: 0 <= i < |data| ==>
            (i in ix <==> multiset(data[i])[','] < h && Fields(data[i])[0] != ""))
      && (forall k :: 0 <= k < |ix| ==> ix[k] < |data| && t.labels[k] == Fields(data[ix[k]])[0])
      && (forall j, k :: 0 <= j < h - 1 && 0 <= k < |ix| ==>
            var f := Fields(data[ix[k]]);
            t.series[j][k].y == (if j + 1 < |f| && f[j + 1] != "" then num(f[j + 1]) else None))
  {
    ParsedFrom(text, num);
    var lines := Lines(Trim(text));
    var headers := Headers(lines[0]);
    AcceptedLines(lines[1..], |headers|);
    AcceptedCells(lines[1..], headers, num);
  }
}
