/** The CSV export of a scenario (src/lib/export/toCsv.ts): a header line
    and one line per daily snapshot, each ended by a newline, with the
    scenario name escaped as in section 2 of RFC 4180.  A reader for that
    format is defined alongside, and the export is proved to read back as
    the header and the snapshots' fields. */
module Csv {
  import opened Types

  /** How the host prints a number (`String(value)`). */
  datatype NumberFormat = NumberFormat(show: real -> string)

  /** A field that must be quoted: it holds a comma, a double quote or a
      newline. */
  predicate NeedsQuoting(text: string) {
    ',' in text || '"' in text || '\n' in text
  }

  /** `replace(/"/g, '""')`: every double quote doubled. */
  function DoubleQuotes(s: string): string {
    if |s| == 0 then [] else (if s[0] == '"' then ['"', '"'] else [s[0]]) + DoubleQuotes(s[1..])
  }

  /** `escapeCsv`: a field that needs quoting is wrapped in double quotes with
      its own quotes doubled; any other field is kept as it is. */
  function EscapeCsv(text: string): string {
    if NeedsQuoting(text) then ['"'] + DoubleQuotes(text) + ['"'] else text
  }

  /** `join(sep)`. */
  function Join(xs: seq<string>, sep: char): string {
    if |xs| == 0 then [] else if |xs| == 1 then xs[0] else xs[0] + [sep] + Join(xs[1..], sep)
  }

  const HeaderFields: seq<string> :=
    ["scenarioName", "day", "balance", "balanceP5", "balanceP95", "nav", "navP5", "navP95", "creditScore"]

  /** The fields of one snapshot's line, before escaping. */
  function RowFields(s: DaySnapshot, scenarioName: string, fmt: NumberFormat): seq<string> {
    [scenarioName, fmt.show(s.day as real), fmt.show(s.balance), fmt.show(s.balanceP5), fmt.show(s.balanceP95),
     fmt.show(s.nav), fmt.show(s.navP5), fmt.show(s.navP95), fmt.show(s.creditScore)]
  }

  /** One snapshot's line: the escaped name, then the numbers as printed. */
  function Row(s: DaySnapshot, scenarioName: string, fmt: NumberFormat): string {
    var f := RowFields(s, scenarioName, fmt);
    Join([EscapeCsv(scenarioName)] + f[1..], ',')
  }

  function Rows(snapshots: seq<DaySnapshot>, scenarioName: string, fmt: NumberFormat): (r: seq<string>)
    ensures |r| == |snapshots|
    ensures forall k :: 0 <= k < |r| ==> r[k] == Row(snapshots[k], scenarioName, fmt)
  {
    if |snapshots| == 0 then []
    else [Row(snapshots[0], scenarioName, fmt)] + Rows(snapshots[1..], scenarioName, fmt)
  }

  /** `toScenarioCsv`: the header, a newline, the rows joined by newlines,
      and a final newline. */
  function ToScenarioCsv(result: SimulationResult, scenarioName: string, fmt: NumberFormat): string {
    Join(HeaderFields, ',') + ['\n'] + Join(Rows(result.dailySnapshots, scenarioName, fmt), '\n') + ['\n']
  }

  // ---------------------------------------------------------------------
  // Reading the format back

  /** The rest of a quoted field after its opening quote: a doubled quote
      stands for one quote and a single quote closes the field.  Returns the
      field and what follows the closing quote. */
  function ReadQuoted(s: string): (r: (string, string))
    ensures |r.1| <= |s|
  {
    if |s| == 0 then ([], [])
    else if s[0] == '"' then
      if |s| >= 2 && s[1] == '"' then
        var (f, rest) := ReadQuoted(s[2..]);
        (['"'] + f, rest)
      else ([], s[1..])
    else
      var (f, rest) := ReadQuoted(s[1..]);
      ([s[0]] + f, rest)
  }

  /** An unquoted field runs up to the next comma or newline. */
  function ReadPlain(s: string): (r: (string, string))
    ensures |r.1| <= |s|
  {
    if |s| == 0 || s[0] == ',' || s[0] == '\n' then ([], s)
    else
      var (f, rest) := ReadPlain(s[1..]);
      ([s[0]] + f, rest)
  }

  function ReadField(s: string): (r: (string, string))
    ensures |r.1| <= |s|
  {
    if |s| > 0 && s[0] == '"' then ReadQuoted(s[1..]) else ReadPlain(s)
  }

  /** The fields of one line, separated by commas; returns them and what
      follows the line's last field. */
  function ReadRecord(s: string): (r: (seq<string>, string))
    ensures |r.1| <= |s|
    decreases |s|
  {
    var (f, rest) := ReadField(s);
    if |rest| > 0 && rest[0] == ',' then
      var (fs, rest') := ReadRecord(rest[1..]);
      ([f] + fs, rest')
    else ([f], rest)
  }

  /** The lines of a document, each ended by a newline (the last one
      possibly not). */
  function ReadDocument(s: string): seq<seq<string>>
    decreases |s|
  {
    if |s| == 0 then []
    else
      var (fs, rest) := ReadRecord(s);
      if |rest| == 0 then [fs] else [fs] + ReadDocument(rest[1..])
  }

  // ---------------------------------------------------------------------
  // Round trips

  /** What may follow a field: nothing, a comma or a newline. */
  predicate FieldEnd(rest: string) {
    |rest| == 0 || rest[0] == ',' || rest[0] == '\n'
  }

  lemma {:induction false} ReadQuotedDoubled(f: string, rest: string)
    requires FieldEnd(rest)
    ensures ReadQuoted(DoubleQuotes(f) + ['"'] + rest) == (f, rest)
  {
    if |f| == 0 {
      assert DoubleQuotes(f) + ['"'] + rest == ['"'] + rest;
    } else {
      ReadQuotedDoubled(f[1..], rest);
      var tail := DoubleQuotes(f[1..]) + ['"'] + rest;
      if f[0] == '"' {
        assert DoubleQuotes(f) + ['"'] + rest == ['"', '"'] + tail;
        assert (['"', '"'] + tail)[2..] == tail;
      } else {
        assert DoubleQuotes(f) + ['"'] + rest == [f[0]] + tail;
        assert ([f[0]] + tail)[1..] == tail;
      }
      assert [f[0]] + f[1..] == f;
    }
  }

  lemma {:induction false} ReadPlainPlain(f: string, rest: string)
    requires ',' !in f && '\n' !in f && FieldEnd(rest)
    ensures ReadPlain(f + rest) == (f, rest)
  {
    if |f| == 0 {
      assert f + rest == rest;
    } else {
      assert f[0] in f;
      assert forall c :: c in f[1..] ==> c in f;
      ReadPlainPlain(f[1..], rest);
      assert (f + rest)[1..] == f[1..] + rest;
      assert [f[0]] + f[1..] == f;
    }
  }

  lemma ReadQuotedField(f: string, rest: string)
    requires FieldEnd(rest)
    ensures ReadField(['"'] + (DoubleQuotes(f) + ['"'] + rest)) == (f, rest)
  {
    ReadQuotedDoubled(f, rest);
    assert (['"'] + (DoubleQuotes(f) + ['"'] + rest))[1..] == DoubleQuotes(f) + ['"'] + rest;
  }

  lemma ReadPlainField(f: string, rest: string)
    requires !NeedsQuoting(f) && FieldEnd(rest)
    ensures ReadField(f + rest) == (f, rest)
  {
    ReadPlainPlain(f, rest);
    if |f| > 0 {
      assert f[0] in f;
    }
  }

  /** Reading an escaped field gives back the field, whatever it holds. */
  lemma ReadFieldEscaped(f: string, rest: string)
    requires FieldEnd(rest)
    ensures ReadField(EscapeCsv(f) + rest) == (f, rest)
  {
    if NeedsQuoting(f) {
      ReadQuotedField(f, rest);
      assert EscapeCsv(f) + rest == ['"'] + (DoubleQuotes(f) + ['"'] + rest);
    } else {
      ReadPlainField(f, rest);
    }
  }

  /** `EscapeCsv` applied to every field. */
  function EscapeAll(fields: seq<string>): (r: seq<string>)
    ensures |r| == |fields| && forall k :: 0 <= k < |r| ==> r[k] == EscapeCsv(fields[k])
  {
    if |fields| == 0 then [] else [EscapeCsv(fields[0])] + EscapeAll(fields[1..])
  }

  /** A line of escaped fields. */
  function Record(fields: seq<string>): string {
    Join(EscapeAll(fields), ',')
  }

  /** A field followed by a comma: the line goes on past the comma. */
  lemma ReadRecordStep(s: string, f: string, more: string)
    requires ReadField(s) == (f, [','] + more)
    ensures ReadRecord(s) == ([f] + ReadRecord(more).0, ReadRecord(more).1)
  {
    assert ([','] + more)[1..] == more;
  }

  lemma {:induction false} ReadRecordJoined(fields: seq<string>, rest: string)
    requires |fields| > 0 && (|rest| == 0 || rest[0] == '\n')
    ensures ReadRecord(Record(fields) + rest) == (fields, rest)
  {
    var e := EscapeAll(fields);
    if |fields| == 1 {
      ReadFieldEscaped(fields[0], rest);
      assert Record(fields) == EscapeCsv(fields[0]);
      assert fields == [fields[0]];
    } else {
      var tail := fields[1..];
      assert EscapeAll(tail) == e[1..];
      var more := Record(tail) + rest;
      ReadFieldEscaped(fields[0], [','] + more);
      assert Record(fields) + rest == EscapeCsv(fields[0]) + ([','] + more);
      ReadRecordStep(Record(fields) + rest, fields[0], more);
      ReadRecordJoined(tail, rest);
      assert [fields[0]] + tail == fields;
    }
  }

  /** Lines ended by newlines. */
  function Terminated(lines: seq<string>): string {
    if |lines| == 0 then [] else lines[0] + ['\n'] + Terminated(lines[1..])
  }

  /** The lines of some records. */
  function Records(records: seq<seq<string>>): (r: seq<string>)
    ensures |r| == |records| && forall k :: 0 <= k < |r| ==> r[k] == Record(records[k])
  {
    if |records| == 0 then [] else [Record(records[0])] + Records(records[1..])
  }

  /** A line followed by a newline: the document goes on past it. */
  lemma ReadDocumentStep(s: string, fs: seq<string>, more: string)
    requires ReadRecord(s) == (fs, ['\n'] + more)
    ensures ReadDocument(s) == [fs] + ReadDocument(more)
  {
    assert (['\n'] + more)[1..] == more;
  }

  /** Reading the lines of some records, each of at least one field, gives
      back the records: quoting keeps commas, quotes and newlines inside a
      field from being read as structure. */
  lemma {:induction false} ReadDocumentRecords(records: seq<seq<string>>)
    requires forall k :: 0 <= k < |records| ==> |records[k]| > 0
    ensures ReadDocument(Terminated(Records(records))) == records
  {
    if |records| > 0 {
      var lines := Records(records);
      assert Records(records[1..]) == lines[1..];
      var more := Terminated(lines[1..]);
      var s := Terminated(lines);
      assert s == Record(records[0]) + (['\n'] + more);
      ReadRecordJoined(records[0], ['\n'] + more);
      ReadDocumentStep(s, records[0], more);
      ReadDocumentRecords(records[1..]);
      assert [records[0]] + records[1..] == records;
    }
  }

  lemma {:induction false} JoinTerminated(lines: seq<string>)
    requires |lines| > 0
    ensures Join(lines, '\n') + ['\n'] == Terminated(lines)
  {
    if |lines| > 1 {
      JoinTerminated(lines[1..]);
      assert Join(lines, '\n') + ['\n'] == lines[0] + ['\n'] + (Join(lines[1..], '\n') + ['\n']);
    }
  }

  // ---------------------------------------------------------------------
  // The export reads back

  /** The host prints numbers without commas, quotes or newlines. */
  ghost predicate PlainNumbers(fmt: NumberFormat) {
    forall x :: !NeedsQuoting(fmt.show(x))
  }

  /** No header name needs quoting. */
  lemma HeaderPlain()
    ensures forall k :: 0 <= k < |HeaderFields| ==> !NeedsQuoting(HeaderFields[k])
  {
    forall k | 0 <= k < |HeaderFields|
      ensures !NeedsQuoting(HeaderFields[k])
    {
      var h := HeaderFields[k];
      if k == 0 { assert h == "scenarioName"; }
      else if k == 1 { assert h == "day"; }
      else if k == 2 { assert h == "balance"; }
      else if k == 3 { assert h == "balanceP5"; }
      else if k == 4 { assert h == "balanceP95"; }
      else if k == 5 { assert h == "nav"; }
      else if k == 6 { assert h == "navP5"; }
      else if k == 7 { assert h == "navP95"; }
      else { assert h == "creditScore"; }
    }
  }

  lemma RowIsRecord(s: DaySnapshot, scenarioName: string, fmt: NumberFormat)
    requires PlainNumbers(fmt)
    ensures Row(s, scenarioName, fmt) == Record(RowFields(s, scenarioName, fmt))
  {
    var f := RowFields(s, scenarioName, fmt);
    var e := EscapeAll(f);
    forall k | 1 <= k < |f|
      ensures e[k] == f[k]
    {
    }
    assert e == [EscapeCsv(scenarioName)] + f[1..];
  }

  /** The fields of every snapshot's line. */
  function SnapshotRecords(snapshots: seq<DaySnapshot>, scenarioName: string, fmt: NumberFormat): (r: seq<seq<string>>)
    ensures |r| == |snapshots| && forall k :: 0 <= k < |r| ==> r[k] == RowFields(snapshots[k], scenarioName, fmt)
  {
    if |snapshots| == 0 then [] else [RowFields(snapshots[0], scenarioName, fmt)] + SnapshotRecords(snapshots[1..], scenarioName, fmt)
  }

  /** The export reads back as the header followed by one line per daily
      snapshot, in order, each holding the scenario name and the snapshot's
      eight numbers in header order, whatever the name contains. */
  lemma ExportReadsBack(result: SimulationResult, scenarioName: string, fmt: NumberFormat)
    requires PlainNumbers(fmt) && |result.dailySnapshots| > 0
    ensures ReadDocument(ToScenarioCsv(result, scenarioName, fmt)) ==
            [HeaderFields] + SnapshotRecords(result.dailySnapshots, scenarioName, fmt)
  {
    HeaderPlain();
    TableReadsBack(HeaderFields, result.dailySnapshots, scenarioName, fmt);
  }

  /** A header line of plain names followed by the snapshots' lines reads
      back as the header and the snapshots' fields. */
  lemma TableReadsBack(header: seq<string>, d: seq<DaySnapshot>, scenarioName: string, fmt: NumberFormat)
    requires PlainNumbers(fmt) && |d| > 0 && |header| > 0
    requires forall k :: 0 <= k < |header| ==> !NeedsQuoting(header[k])
    ensures ReadDocument(Join(header, ',') + ['\n'] + Join(Rows(d, scenarioName, fmt), '\n') + ['\n']) ==
            [header] + SnapshotRecords(d, scenarioName, fmt)
  {
    var records := [header] + SnapshotRecords(d, scenarioName, fmt);
    TableLines(header, d, scenarioName, fmt);
    ReadDocumentRecords(records);
  }

  lemma TableLines(header: seq<string>, d: seq<DaySnapshot>, scenarioName: string, fmt: NumberFormat)
    requires PlainNumbers(fmt) && |d| > 0
    requires forall k :: 0 <= k < |header| ==> !NeedsQuoting(header[k])
    ensures Join(header, ',') + ['\n'] + Join(Rows(d, scenarioName, fmt), '\n') + ['\n'] ==
            Terminated(Records([header] + SnapshotRecords(d, scenarioName, fmt)))
  {
    var records := [header] + SnapshotRecords(d, scenarioName, fmt);
    var rows := Rows(d, scenarioName, fmt);
    var lines := Records(records);
    assert EscapeAll(header) == header;
    forall k | 0 <= k < |d|
      ensures rows[k] == lines[k + 1]
    {
      RowIsRecord(d[k], scenarioName, fmt);
    }
    assert lines == [Join(header, ',')] + rows;
    JoinTerminated(rows);
    assert Terminated(lines) == lines[0] + ['\n'] + Terminated(lines[1..]);
  }

  /** With no snapshots the header is followed by an empty line, which
      reads back as one line holding a single empty field. */
  lemma EmptyExport(result: SimulationResult, scenarioName: string, fmt: NumberFormat)
    requires |result.dailySnapshots| == 0
    ensures ReadDocument(ToScenarioCsv(result, scenarioName, fmt)) == [HeaderFields, [""]]
  {
    HeaderPlain();
    EmptyTable(HeaderFields, result.dailySnapshots, scenarioName, fmt);
  }

  lemma EmptyTable(header: seq<string>, d: seq<DaySnapshot>, scenarioName: string, fmt: NumberFormat)
    requires |d| == 0 && |header| > 0
    requires forall k :: 0 <= k < |header| ==> !NeedsQuoting(header[k])
    ensures ReadDocument(Join(header, ',') + ['\n'] + Join(Rows(d, scenarioName, fmt), '\n') + ['\n']) == [header, [""]]
  {
    var records := [header, [""]];
    assert EscapeAll(header) == header;
    assert Records(records) == [Join(header, ','), []];
    assert Terminated(Records(records)) == Join(header, ',') + ['\n'] + [] + ['\n'];
    ReadDocumentRecords(records);
  }
}
