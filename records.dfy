/** The record model, how one CSV row becomes a record, and how a record is bound
    to the parameters of the insert or update statement. */
module Records {
  import opened Base
  import opened TimeFormat

  /** A Java `double`, carried as its 64-bit IEEE 754 pattern; the job only passes it on. */
  datatype Amount = Amount(bits: bv64)

  /** `CsvRecord`: one decoded row. */
  datatype Record = Record(
    id: string,
    name: string,
    description: string,
    amount: Amount,
    timestamp: DateTime,
    status: string)

  /** A row as the CSV library hands it out: its header-to-value map and the value of
      `getCurrentLineNumber()` while the row is being decoded. */
  datatype CsvRow = CsvRow(fields: map<string, string>, lineNumber: int)

  /** The library calls a row's decoding depends on: the exception `CSVRecord.get`
      throws for a column the header lacks, `Double.parseDouble`, and
      `LocalDateTime.parse` with the pattern `yyyy-MM-dd HH:mm:ss`. */
  datatype Parsers = Parsers(
    missingColumn: string -> Exception,
    parseDouble: string -> Result<Amount, Exception>,
    parseDateTime: string -> Result<DateTime, Exception>)

  /** The table's columns, in the order of the insert statement. */
  const COLUMNS: seq<string> := ["id", "name", "description", "amount", "timestamp", "status"]

  /** `CSVRecord.get(name)`. */
  function Column(row: CsvRow, name: string, p: Parsers): Result<string, Exception> {
    if name in row.fields then Success(row.fields[name]) else Failure(p.missingColumn(name))
  }

  predicate HasColumns(row: CsvRow) {
    "id" in row.fields && "name" in row.fields && "description" in row.fields
      && "amount" in row.fields && "timestamp" in row.fields && "status" in row.fields
  }

  /** A row decodes when all six columns are present and both parsers accept their text. */
  predicate Decodes(row: CsvRow, p: Parsers) {
    HasColumns(row)
      && p.parseDouble(row.fields["amount"]).Success?
      && p.parseDateTime(row.fields["timestamp"]).Success?
  }

  /** The body of the decode loop: read the six columns in order, parsing the amount and
      the timestamp; the first step that throws decides the row's exception, and no
      partly filled record ever leaves it. */
  function DecodeRow(row: CsvRow, p: Parsers): (r: Result<Record, Exception>)
    ensures r.Success? <==> Decodes(row, p)
    ensures r.Success? ==> r.value == Record(
      row.fields["id"], row.fields["name"], row.fields["description"],
      p.parseDouble(row.fields["amount"]).value,
      p.parseDateTime(row.fields["timestamp"]).value,
      row.fields["status"])
    // A failure is the first failing step, in the order id, name, description, amount,
    // parsing the amount, timestamp, parsing the timestamp, status.
    ensures "id" !in row.fields ==> r == Failure(p.missingColumn("id"))
    ensures "id" in row.fields && "name" !in row.fields ==> r == Failure(p.missingColumn("name"))
    ensures "id" in row.fields && "name" in row.fields && "description" !in row.fields ==>
      r == Failure(p.missingColumn("description"))
    ensures "id" in row.fields && "name" in row.fields && "description" in row.fields
            && "amount" !in row.fields ==>
      r == Failure(p.missingColumn("amount"))
    ensures "id" in row.fields && "name" in row.fields && "description" in row.fields
            && "amount" in row.fields && p.parseDouble(row.fields["amount"]).Failure? ==>
      r == Failure(p.parseDouble(row.fields["amount"]).error)
    ensures "id" in row.fields && "name" in row.fields && "description" in row.fields
            && "amount" in row.fields && p.parseDouble(row.fields["amount"]).Success?
            && "timestamp" !in row.fields ==>
      r == Failure(p.missingColumn("timestamp"))
    ensures "id" in row.fields && "name" in row.fields && "description" in row.fields
            && "amount" in row.fields && p.parseDouble(row.fields["amount"]).Success?
            && "timestamp" in row.fields && p.parseDateTime(row.fields["timestamp"]).Failure? ==>
      r == Failure(p.parseDateTime(row.fields["timestamp"]).error)
    ensures "id" in row.fields && "name" in row.fields && "description" in row.fields
            && "amount" in row.fields && p.parseDouble(row.fields["amount"]).Success?
            && "timestamp" in row.fields && p.parseDateTime(row.fields["timestamp"]).Success?
            && "status" !in row.fields ==>
      r == Failure(p.missingColumn("status"))
  {
    var id :- Column(row, "id", p);
    var name :- Column(row, "name", p);
    var description :- Column(row, "description", p);
    var amountText :- Column(row, "amount", p);
    var amount :- p.parseDouble(amountText);
    var timestampText :- Column(row, "timestamp", p);
    var timestamp :- p.parseDateTime(timestampText);
    var status :- Column(row, "status", p);
    Success(Record(id, name, description, amount, timestamp, status))
  }

  /** A value bound to a statement parameter: `setString`, `setDouble` or `setObject`. */
  datatype Param = Text(s: string) | Double(a: Amount) | Object(t: DateTime)

  /** The parameters of one batched statement, by JDBC position (1-based). */
  type Params = map<int, Param>

  const INSERT_SQL := "INSERT INTO csv_records (id, name, description, amount, timestamp, status) VALUES (?, ?, ?, ?, ?, ?)"
  const UPDATE_SQL := "UPDATE csv_records SET name = ?, description = ?, amount = ?, timestamp = ?, status = ? WHERE id = ?"

  function Sql(isUpdate: bool): string {
    if isUpdate then UPDATE_SQL else INSERT_SQL
  }

  /** The column each `?` of the mode's statement stands for, in placeholder order, as
      read off `INSERT_SQL` and `UPDATE_SQL`: the insert lists every column; the update
      sets every column but the key and selects by the key last. */
  function PlaceholderColumns(isUpdate: bool): seq<string> {
    if isUpdate then COLUMNS[1..] + [COLUMNS[0]] else COLUMNS
  }

  /** A record's value for one of the table's columns, as the statement receives it. */
  function ColumnParam(r: Record, column: string): Param
    requires column in COLUMNS
  {
    match column
    case "id" => Text(r.id)
    case "name" => Text(r.name)
    case "description" => Text(r.description)
    case "amount" => Double(r.amount)
    case "timestamp" => Object(r.timestamp)
    case "status" => Text(r.status)
  }

  /** The six `set...` calls made for one record before `addBatch()`. */
  function Bind(r: Record, isUpdate: bool): Params {
    if isUpdate then
      map[1 := Text(r.name), 2 := Text(r.description), 3 := Double(r.amount),
          4 := Object(r.timestamp), 5 := Text(r.status), 6 := Text(r.id)]
    else
      map[1 := Text(r.id), 2 := Text(r.name), 3 := Text(r.description),
          4 := Double(r.amount), 5 := Object(r.timestamp), 6 := Text(r.status)]
  }

  /** Every placeholder of the mode's statement receives the record's value for the
      column it stands for, and no other position is bound; in update mode the key is
      parameter 6, the one `WHERE id = ?` reads. */
  lemma {:induction false} BindMatchesPlaceholders(r: Record, isUpdate: bool)
    ensures Bind(r, isUpdate).Keys == {1, 2, 3, 4, 5, 6}
    ensures forall k :: 1 <= k <= 6 ==> Bind(r, isUpdate)[k] == ColumnParam(r, PlaceholderColumns(isUpdate)[k - 1])
    ensures isUpdate ==> PlaceholderColumns(isUpdate)[5] == "id" && Bind(r, isUpdate)[6] == Text(r.id)
  {
    var cs := PlaceholderColumns(isUpdate);
    if isUpdate {
      assert cs == ["name", "description", "amount", "timestamp", "status", "id"];
    } else {
      assert cs == ["id", "name", "description", "amount", "timestamp", "status"];
    }
  }

  /** A decoded record reaches the mode's statement with the row's texts verbatim and
      the parsers' values: the id at the key's position (1 for the insert, 6 for the
      update's `WHERE id = ?`), then the amount and the timestamp at theirs. */
  lemma DecodedFieldsReachStatement(row: CsvRow, p: Parsers, isUpdate: bool)
    requires Decodes(row, p)
    ensures var ps := Bind(DecodeRow(row, p).value, isUpdate);
      && ps[if isUpdate then 6 else 1] == Text(row.fields["id"])
      && ps[if isUpdate then 3 else 4] == Double(p.parseDouble(row.fields["amount"]).value)
      && ps[if isUpdate then 4 else 5] == Object(p.parseDateTime(row.fields["timestamp"]).value)
      && ps[if isUpdate then 5 else 6] == Text(row.fields["status"])
  {
  }

  function BindAll(records: seq<Record>, isUpdate: bool): (ps: seq<Params>)
    ensures |ps| == |records|
    ensures forall i :: 0 <= i < |records| ==> ps[i] == Bind(records[i], isUpdate)
  {
    seq(|records|, i requires 0 <= i < |records| => Bind(records[i], isUpdate))
  }
}
