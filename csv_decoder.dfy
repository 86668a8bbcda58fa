/** `parseCsvFile`: decodes every row of the local file into a record, in file order,
    and gives up at the first row that does not decode, after reporting it. */
module CsvDecoder {
  import opened Base
  import opened Records

  /** What the CSV library yields for the local file: the exception opening the reader
      or reading the header throws, if any; the rows it hands out; and the exception
      its iterator throws after those rows, if any. */
  datatype CsvSource = CsvSource(
    openError: Option<Exception>,
    rows: seq<CsvRow>,
    readError: Option<Exception>)

  /** The index of the first row that does not decode, or the number of rows. */
  function FirstBadRow(rows: seq<CsvRow>, p: Parsers): (k: nat)
    ensures k <= |rows|
    ensures forall j :: 0 <= j < k ==> Decodes(rows[j], p)
    ensures k < |rows| ==> !Decodes(rows[k], p)
  {
    var ok := (j: nat) => j < |rows| ==> Decodes(rows[j], p);
    var k := FirstFailing(|rows|, ok);
    assert forall j :: 0 <= j < k ==> Decodes(rows[j], p) by {
      forall j | 0 <= j < k ensures Decodes(rows[j], p) {
        assert ok(j);
      }
    }
    k
  }

  /** The report made for a row that does not decode: its line number and its raw fields. */
  function RowReport(fileName: string, row: CsvRow, e: Exception): ReportCall {
    ReportCall(fileName, "CSVParsing", e,
      Some(map["recordNumber" := Long(row.lineNumber), "recordData" := StrMap(row.fields)]))
  }

  function DecodedRecords(rows: seq<CsvRow>, p: Parsers): (records: seq<Record>)
    requires forall i :: 0 <= i < |rows| ==> Decodes(rows[i], p)
  {
    seq(|rows|, i requires 0 <= i < |rows| => DecodeRow(rows[i], p).value)
  }

  /** How `parseCsvFile` ends: the list it returns or the exception it throws, and the
      reports it makes on the way. */
  datatype Decoded = Decoded(result: Result<seq<Record>, Exception>, reports: seq<ReportCall>)

  /** The outcome of decoding `source`, stated without the loop: the first bad row decides. */
  function Decode(fileName: string, source: CsvSource, p: Parsers): Decoded {
    if source.openError.Some? then Decoded(Failure(source.openError.value), [])
    else
      var rows := source.rows;
      var k := FirstBadRow(rows, p);
      if k < |rows| then
        var e := DecodeRow(rows[k], p).error;
        Decoded(Failure(e), [RowReport(fileName, rows[k], e)])
      else if source.readError.Some? then Decoded(Failure(source.readError.value), [])
      else Decoded(Success(DecodedRecords(rows, p)), [])
  }

  method ParseCsvFile(fileName: string, source: CsvSource, p: Parsers)
    returns (result: Result<seq<Record>, Exception>, reports: seq<ReportCall>)
    ensures Decoded(result, reports) == Decode(fileName, source, p)
  {
    reports := [];
    if source.openError.Some? {
      result := Failure(source.openError.value);
      return;
    }
    var rows := source.rows;
    var records: seq<Record> := [];
    var i := 0;
    while i < |rows|
      invariant 0 <= i <= |rows|
      invariant |records| == i
      invariant forall j :: 0 <= j < i ==> Decodes(rows[j], p) && records[j] == DecodeRow(rows[j], p).value
    {
      var decoded := DecodeRow(rows[i], p);
      if decoded.Failure? {
        var additionalInfo: ReportMap := map[];
        additionalInfo := additionalInfo["recordNumber" := Long(rows[i].lineNumber)];
        additionalInfo := additionalInfo["recordData" := StrMap(rows[i].fields)];
        reports := reports + [ReportCall(fileName, "CSVParsing", decoded.error, Some(additionalInfo))];
        result := Failure(decoded.error);
        assert FirstBadRow(rows, p) == i;
        return;
      }
      records := records + [decoded.value];
      i := i + 1;
    }
    assert FirstBadRow(rows, p) == |rows|;
    if source.readError.Some? {
      result := Failure(source.readError.value);
      return;
    }
    assert records == DecodedRecords(rows, p);
    result := Success(records);
  }

  /** The records come out one per row and in row order, and decoding succeeds exactly
      when the file opens, every row decodes and the reader reaches the end. */
  lemma DecodePreservesOrder(fileName: string, source: CsvSource, p: Parsers)
    ensures Decode(fileName, source, p).result.Success? <==>
      source.openError.None? && source.readError.None?
        && forall i :: 0 <= i < |source.rows| ==> Decodes(source.rows[i], p)
    ensures var d := Decode(fileName, source, p);
      d.result.Success? ==>
        |d.result.value| == |source.rows|
        && forall i :: 0 <= i < |source.rows| ==> DecodeRow(source.rows[i], p) == Success(d.result.value[i])
    ensures Decode(fileName, source, p).result.Success? ==> Decode(fileName, source, p).reports == []
  {
    if source.openError.None? && (forall i :: 0 <= i < |source.rows| ==> Decodes(source.rows[i], p)) {
      assert FirstBadRow(source.rows, p) == |source.rows|;
    }
  }

  /** Fail-fast: when row `k` is the first that does not decode, decoding throws that
      row's exception after exactly one report, which carries the row's line number and
      raw fields; no list of records is returned, whatever follows row `k`. */
  lemma DecodeStopsAtFirstBadRow(fileName: string, source: CsvSource, p: Parsers, k: nat)
    requires source.openError.None?
    requires k < |source.rows|
    requires forall j :: 0 <= j < k ==> Decodes(source.rows[j], p)
    requires !Decodes(source.rows[k], p)
    ensures var d := Decode(fileName, source, p);
      && d.result == Failure(DecodeRow(source.rows[k], p).error)
      && |d.reports| == 1
      && d.reports[0].eventType == "CSVParsing"
      && d.reports[0].error == d.result.error
      && d.reports[0].additionalInfo == Some(map[
           "recordNumber" := Long(source.rows[k].lineNumber),
           "recordData" := StrMap(source.rows[k].fields)])
  {
    assert FirstBadRow(source.rows, p) == k;
  }

  /** A failure to open or read the file is thrown without a row report. */
  lemma DecodeReaderFailure(fileName: string, source: CsvSource, p: Parsers)
    requires source.openError.Some? || (source.readError.Some?
      && forall i :: 0 <= i < |source.rows| ==> Decodes(source.rows[i], p))
    ensures Decode(fileName, source, p).reports == []
    ensures Decode(fileName, source, p).result ==
      Failure(if source.openError.Some? then source.openError.value else source.readError.value)
  {
    if source.openError.None? {
      assert FirstBadRow(source.rows, p) == |source.rows|;
    }
  }
}
