# S3 CSV ingestion job — a verified Dafny model

The job is triggered by an object-store event. It downloads a CSV file and decodes
every row into a record (`id`, `name`, `description`, `amount`, `timestamp`,
`status`). It then writes the records to the `csv_records` table. The two
`ObjectModified` events (`ObjectModified:Put` and `ObjectModified:CompleteMultipartUpload`)
select updates keyed by `id`. Every other event type, including an unknown one, selects
inserts. Records go through one prepared statement in chunks of 1000, and each chunk is
executed and committed on its own.

A failure inside `processFile`'s `try` is reported as a JSON error report uploaded to
the object store. Each reporting `catch` it passes on its way out adds one report: the
decoder's row `catch`, the writer's per-record `catch`, the mode wrapper, `processFile`
and `main`. The process then exits with status 1. Not every failure is reported:

- The writer's outer `catch` only wraps the `SQLException` in `RuntimeException("Database error")`.
- A missing parameter exits with status 1 before any report.
- A failure while building the error-reporting service is outside every `try` and leaves `main` uncaught.

This project models:

- the decision and bookkeeping code of that job;
- the error-reporting service it uses.

It proves what that code promises about:

- chunking and commit boundaries;
- record order;
- the state left after a failure;
- which failures are attributed to which record;
- the sequence of reports a failure produces;
- the contents and storage key of a report.

Files, one module each:

- `base.dfy`: `Option`, `Result`, a Java exception as a value, report values, and `FirstFailing` (where a fail-fast loop stops).
- `time_format.dfy`: `LocalDateTime`, its `toString()`, and the report-key pattern `yyyy-MM-dd-HH-mm-ss`.
- `error_reporting.dfy`: `ErrorReportingService` (the class and its `reportError` method), `getStackTraceAsString`, the report map and the report key.
- `records.dfy`: the record, the decoding of one row, and the binding of a record to the insert or update statement.
- `csv_decoder.dfy`: `parseCsvFile`, as a loop proved equal to a loop-free definition `Decode`.
- `database.dfy`: the database session as a class. Its state is the pending batch, the executed but uncommitted statements, and the committed transactions. A fault map says which call throws `SQLException`.
- `batch_writer.dfy`: `saveToDatabase`, as a loop proved equal to a loop-free definition `SaveSpec`. The chunk lemmas are also here.
- `pipeline.dfy`: the event dispatch, the three mode wrappers, `processFile(String, ...)` and `main`. Each is a method proved equal to a stage function, and the lemmas prove the report cascades.

How the model treats the parts outside the job's own code:

- Foreign calls and the clock become inputs: `Double.parseDouble`, `LocalDateTime.parse`, Jackson, `putObject` and `LocalDateTime.now()`.
- The database's behaviour is an oracle: which of acquiring the session (`getConnection`, `prepareStatement` and `setAutoCommit(false)`), `addBatch`, `executeBatch`, `commit` or close throws.
- The CSV library's output is an input: rows as field maps with their line numbers, plus any exception from opening or reading.
- Reports are the calls made to the job's static `reportError` helper, kept in the order they are made. A separate `Deliver` function models the helper's null-service fallback.

Behaviour worth noting:

- Decoding is fail-fast. The per-row `catch` reports the first bad row and re-throws, so no later row is decoded and nothing is written.
- Nothing checks that `id` is non-empty.
- The mode wrappers and the decoder report under the temporary file's `getName()`, not under the object key.
- Building the S3 client and creating the temporary file happen before `processFile`'s `try`. A failure there gets only `main`'s report.
- A failure in the final flush of a partial chunk is reported by no record-level report. It is only wrapped as `RuntimeException("Database error")`.

## Model

| member | source | states |
|---|---|---|
| Pipeline.SelectMode | src/main/java/com/example/S3FileProcessor.java:90-104 | the two `ObjectCreated` events select insert, tag `newFile` and label `ObjectCreated`; the two `ObjectModified` events select update, `fileUpdate` and `ObjectModified`; every other string selects insert, `default` and `Unknown`; update mode is chosen exactly for the modified events |
| Pipeline.JobParameters | src/main/java/com/example/S3FileProcessor.java:34-50 | the run is refused exactly when one of the four required variables is missing; otherwise the parameters are the variables' values, and the report prefix is the supplied value or `error-reports` |
| Pipeline.Deliver | src/main/java/com/example/S3FileProcessor.java:249-254 | a report reaches the service exactly when one exists, and is otherwise only logged; the call itself is passed on unchanged |
| Pipeline.ProcessWithMode | src/main/java/com/example/S3FileProcessor.java:122-156 | a mode wrapper decodes, then writes in the mode's statement, and adds one report for the temporary file with the mode's label and `processingType` before re-throwing; result, reports and committed state are those of `WrapperStage`; once the file decodes and the session opens, the session's statement is the mode's insert or update and the session ends with nothing pending or uncommitted; otherwise the session is untouched |
| Pipeline.ProcessObject | src/main/java/com/example/S3FileProcessor.java:63-120 | a setup failure propagates unreported; a download failure or a wrapper failure gets one more report with bucket and region; otherwise the selected wrapper runs; error, reports, committed state and the session's prepared statement are those `ObjectStage` defines; an opened session ends closed, and an unopened one is untouched |
| Pipeline.RunJob | src/main/java/com/example/S3FileProcessor.java:33-61 | outcome, reports, committed state and the session's prepared statement are those of `Job`; an opened session ends closed, and an unopened one is untouched; the service is created with the job's region, bucket and defaulted prefix before any report, so every report is handed to it |
| Pipeline.RowFailureCascade | src/main/java/com/example/S3FileProcessor.java:177-183 | a row that does not decode yields exactly four reports of its exception (decoder with line number and raw fields, wrapper, `processFile`, `main`), exit 1 and nothing written |
| Pipeline.RecordFailureCascade | src/main/java/com/example/S3FileProcessor.java:223-233 | a failing statement of record k yields the writer's report with the `SQLException` and record k's id, then three reports of the wrapping `RuntimeException`, exit 1, and exactly the chunks before record k committed through the selected statement |
| Pipeline.FlushFailureCascade | src/main/java/com/example/S3FileProcessor.java:237-245 | a failure of the final partial flush yields three reports (wrapper, `processFile`, `main`), none carrying a record id, and exit 1 |
| Pipeline.JobSucceeds | src/main/java/com/example/S3FileProcessor.java:52-61 | with no failure the job returns normally and reports nothing; it commits every decoded record, in order, through `UPDATE_SQL` for the two `ObjectModified` events and through `INSERT_SQL` for every other event type |
| Pipeline.JobReportsShape | src/main/java/com/example/S3FileProcessor.java:40-57 | for all inputs: a missing parameter exits 1 with no report and nothing written; a normal return has no reports; exit codes are 1; the last report is `main`'s, with no additional information; there are at most four reports; the only statement ever prepared is the one the event type selects, and nothing is committed without it |
| CsvDecoder.ParseCsvFile | src/main/java/com/example/S3FileProcessor.java:158-188 | the decode loop returns and reports exactly what `Decode` defines: the records in row order, or the first bad row's exception after one report |
| CsvDecoder.DecodePreservesOrder | src/main/java/com/example/S3FileProcessor.java:167-187 | decoding succeeds exactly when the file opens, every row decodes and reading completes; then there is one record per row, in row order, each the row's decoding, and no report |
| CsvDecoder.DecodeStopsAtFirstBadRow | src/main/java/com/example/S3FileProcessor.java:177-183 | the first bad row's exception is thrown after exactly one `CSVParsing` report carrying its line number and raw fields, whatever the later rows hold |
| CsvDecoder.DecodeReaderFailure | src/main/java/com/example/S3FileProcessor.java:161-187 | a failure to open or to read the file propagates with no row report |
| Records.DecodeRow | src/main/java/com/example/S3FileProcessor.java:169-176 | a row decodes exactly when all six columns are present and both parsers accept; the record then carries the row's texts and the parsed values; otherwise the error is that of the first failing step, in the order id, name, description, amount, parsing the amount, timestamp, parsing the timestamp, status |
| Records.BindMatchesPlaceholders | src/main/java/com/example/S3FileProcessor.java:191-218 | exactly positions 1 to 6 are bound, and each receives the record's value for the column its placeholder stands for; in update mode position 6 is the id that `WHERE id = ?` reads |
| Records.DecodedFieldsReachStatement | src/main/java/com/example/S3FileProcessor.java:204-217 | in the mode's bound parameters, the id (at position 1 for the insert, 6 for the update), the amount, the timestamp and the status are the row's texts and the parsers' values, unchanged |
| Persistence.Database.constructor | src/main/java/com/example/S3FileProcessor.java:195-198 | a session starts with no statement, nothing added, nothing pending, and the given committed state |
| Persistence.Database.Open | src/main/java/com/example/S3FileProcessor.java:195-198 | acquiring the connection, preparing the statement and turning auto-commit off either throws the oracle's exception and changes nothing, or starts an empty session on that statement |
| Persistence.Database.AddBatch | src/main/java/com/example/S3FileProcessor.java:204-220 | binding and `addBatch` append the parameters to the pending batch and count them, or throw and change nothing |
| Persistence.Database.ExecuteBatch | src/main/java/com/example/S3FileProcessor.java:224-224 | `executeBatch` moves the pending batch into the open transaction, or throws and changes nothing |
| Persistence.Database.Commit | src/main/java/com/example/S3FileProcessor.java:225-225 | `commit` appends the open transaction's statements to the committed state as one transaction, or throws and changes nothing |
| Persistence.Database.Close | src/main/java/com/example/S3FileProcessor.java:195-196 | closing discards whatever is uncommitted from the session and leaves the committed state as it was |
| BatchWriter.Flush | src/main/java/com/example/S3FileProcessor.java:224-225 | execute then commit: the pending batch becomes one committed transaction, or the first failing call's exception is returned and nothing is committed |
| BatchWriter.AddRecord | src/main/java/com/example/S3FileProcessor.java:204-226 | one record's inner `try`: it fails exactly when its `addBatch`, or the flush of the chunk it completes, fails; a completed chunk of 1000 becomes one transaction |
| BatchWriter.AddRecords | src/main/java/com/example/S3FileProcessor.java:202-234 | the record loop stops at the first failing record, or runs to the end; the chunks completed before that point are committed, and the rest of the chunk is pending |
| BatchWriter.SaveToDatabase | src/main/java/com/example/S3FileProcessor.java:190-247 | result, reports and newly committed transactions are exactly those of `SaveSpec`, and the earlier committed state is kept; the session's statement is `Sql(isUpdate)` and the session ends closed, with nothing pending or uncommitted, on every path once acquiring it succeeds; when acquiring it fails, the session is untouched |
| BatchWriter.SaveCommitsEveryRecord | src/main/java/com/example/S3FileProcessor.java:199-240 | with no failing call: ceil(n/1000) transactions, each of 1000 statements but the last (1 to 1000), concatenating to the records' statements in order, all through `Sql(isUpdate)`; no records give no transaction; the result is the record count and there are no reports |
| BatchWriter.SaveFailsAtRecord | src/main/java/com/example/S3FileProcessor.java:223-245 | when record k fails first: floor(k/1000) full transactions stay committed, holding the statements of the records before the open chunk; one report names record k's id and the mode; the exception leaves as `RuntimeException("Database error")` caused by it |
| BatchWriter.SaveFailsInFinalFlush | src/main/java/com/example/S3FileProcessor.java:237-245 | when only the final partial flush fails: floor(n/1000) full transactions stay committed, there is no report, and the exception leaves wrapped |
| BatchWriter.SaveShape | src/main/java/com/example/S3FileProcessor.java:190-247 | for every fault map: the statement is prepared exactly when acquiring the session succeeds, and nothing is committed otherwise; what is committed is a prefix of the statements in record order, chunked by 1000; the run saves exactly when no call fails, and then saves all; there is at most one report, carrying the wrapped cause; every failure is `RuntimeException("Database error")` |
| BatchWriter.SaveKeepsCompletedChunks | src/main/java/com/example/S3FileProcessor.java:220-240 | 2500 records whose first 2000 succeed, when the run then fails: exactly two transactions, 2000 statements, remain committed |
| ErrorReporting.ErrorReportingService.constructor | src/main/java/com/example/service/ErrorReportingService.java:26-34 | the service keeps the region, bucket and prefix it is given |
| ErrorReporting.ErrorReportingService.ReportError | src/main/java/com/example/service/ErrorReportingService.java:36-71 | the six base keys from the first clock reading, with `additionalInfo` merged over them so that it wins on collisions, and exactly the base keys when it is null; a serialisation or upload failure is swallowed; otherwise the upload goes to the configured bucket under the key for the second clock reading, as `application/json`, with the body's byte length |
| ErrorReporting.StackTraceAsString | src/main/java/com/example/service/ErrorReportingService.java:73-79 | the `StringBuilder` loop produces every frame's text followed by a newline, in frame order |
| ErrorReporting.StackTraceLinesRoundTrip | src/main/java/com/example/service/ErrorReportingService.java:73-79 | splitting the text at its newlines gives back the frames, when no frame text holds a newline |
| ErrorReporting.StackTraceNewlines | src/main/java/com/example/service/ErrorReportingService.java:73-79 | the text holds one newline per frame, and it is empty exactly when there are no frames |
| ErrorReporting.ReportKeyIdentifiesSecond | src/main/java/com/example/service/ErrorReportingService.java:51-53 | under one prefix, two report keys are equal exactly when their clock readings fall in the same second |
| ErrorReporting.ReportKeyShape | src/main/java/com/example/service/ErrorReportingService.java:51-53 | a report key is the prefix, a slash, a 19-character stamp and `-error-report.json` |
| ErrorReporting.BaseReportKeys | src/main/java/com/example/service/ErrorReportingService.java:38-44 | the report before merging has exactly the six base keys |
| TimeFormat.KeyStampRoundTrip | src/main/java/com/example/service/ErrorReportingService.java:20-20 | the `yyyy-MM-dd-HH-mm-ss` stamp of a four-digit year has 19 characters, and reads back as the date-time truncated to the second |
| TimeFormat.KeyStampIdentifiesSecond | src/main/java/com/example/service/ErrorReportingService.java:53-53 | two readings give the same stamp exactly when they fall in the same second |
| TimeFormat.IsoTextLength | src/main/java/com/example/service/ErrorReportingService.java:39-39 | the report's `timestamp` (`LocalDateTime.toString()`) omits the seconds of a whole minute, and otherwise shows 0, 3, 6 or 9 fraction digits |

## Left out

- The S3 download and the temporary file are not modelled: the byte copy, the file's deletion in `finally`, and the S3 client. Their failures are inputs (`setupError`, `downloadError`), and the file's name is an input.
- CSV tokenisation is not modelled: header handling, case-insensitive header lookup, trimming, and the value of `getCurrentLineNumber()`. Rows are already-split field maps that carry their line number.
- `Double.parseDouble` and `LocalDateTime.parse` are opaque partial functions supplied as inputs, and an amount is an opaque 64-bit pattern. Floating point is not modelled.
- Jackson serialisation, `String.getBytes()` and `putObject` are not modelled. They are the `serialize` function and the `putFault` input. The clock is the two readings passed to `ReportError`.
- SQL semantics are not modelled: constraint violations and what an UPDATE matches. The committed state counts only the transactions of explicit `commit()` calls. Work left uncommitted at close is assumed not to persist, since the JDBC outcome of closing a connection with auto-commit off is left to the driver. An oracle says which calls throw `SQLException`.
- A close that throws after the body of the try-with-resources has already thrown is suppressed, and the model keeps the first exception. A reader-close failure in `parseCsvFile` is not modelled.
- A non-SQL exception from the driver (a `RuntimeException` from binding, say) is not modelled. It would bypass the `SQLException` catches. The fault map does not constrain its exceptions' class names: each is taken to be an `SQLException`, whatever its `className` says.
- `DatabaseConfig.java` is not part of this model, and neither is its `close()` in `main`'s `finally`.
- Logging is not modelled, and `System.exit` is only the outcome value `Exit(1)`. A JVM `Error`, which is not an `Exception`, is not modelled.
- Java's `int` record counter is unbounded here. It cannot overflow before the list of records does.
- Database.Open, Database.AddBatch, Database.ExecuteBatch, Database.Commit and Database.Close cover one session with one statement only. The connection pool is not modelled.
- ReportKeyIdentifiesSecond: proved only for years up to 9999. Longer years print with a sign and a varying width.
- KeyStampRoundTrip: proved only for years up to 9999.
- KeyStampIdentifiesSecond: proved only for years up to 9999.
- ReportKeyShape: proved only for years up to 9999.
- IsoTextLength: proved only for years up to 9999.
- ReportError: the uploaded bytes are whatever `serialize` returns. The JSON text of the map is not modelled.
- RunJob: every report is delivered to the service. The service's own `ReportError` is proved separately, because it takes per-call clock readings and upload outcomes.
