/** The job around the decoder and the writer: `main` reads its parameters from the
    environment, `processFile(String, ...)` fetches the object and dispatches on the event
    type to one of three mode wrappers, and every `catch` on the way reports the failure
    once more before re-throwing it. */
module Pipeline {
  import opened Base
  import opened Records
  import opened CsvDecoder
  import opened Persistence
  import opened BatchWriter
  import opened ErrorReporting

  /** What the event type selects: insert or update, the wrapper's `processingType` tag
      and the event label the wrapper reports under. */
  datatype Mode = Mode(isUpdate: bool, processingType: string, eventLabel: string)

  const CREATED_EVENTS: set<string> := {"ObjectCreated:Put", "ObjectCreated:CompleteMultipartUpload"}
  const MODIFIED_EVENTS: set<string> := {"ObjectModified:Put", "ObjectModified:CompleteMultipartUpload"}

  /** The `switch` of `processFile(String, ...)` with the wrapper each case calls. */
  function SelectMode(eventType: string): (m: Mode)
    ensures eventType in CREATED_EVENTS ==> m == Mode(false, "newFile", "ObjectCreated")
    ensures eventType in MODIFIED_EVENTS ==> m == Mode(true, "fileUpdate", "ObjectModified")
    ensures eventType !in CREATED_EVENTS + MODIFIED_EVENTS ==> m == Mode(false, "default", "Unknown")
    ensures m.isUpdate <==> eventType in MODIFIED_EVENTS
  {
    match eventType
    case "ObjectCreated:Put" => Mode(false, "newFile", "ObjectCreated")
    case "ObjectCreated:CompleteMultipartUpload" => Mode(false, "newFile", "ObjectCreated")
    case "ObjectModified:Put" => Mode(true, "fileUpdate", "ObjectModified")
    case "ObjectModified:CompleteMultipartUpload" => Mode(true, "fileUpdate", "ObjectModified")
    case _ => Mode(false, "default", "Unknown")
  }

  /** The job's parameters once `main` has accepted them. */
  datatype JobParams = JobParams(
    bucketName: string,
    fileKey: string,
    region: string,
    eventType: string,
    errorReportsPrefix: string)

  const DEFAULT_REPORTS_PREFIX := "error-reports"

  /** `main`'s reading of the environment (a variable that is not set is absent from
      `vars`): none when one of the four required variables is missing, and otherwise
      the parameters with the report prefix defaulted. */
  function JobParameters(vars: map<string, string>): (r: Option<JobParams>)
    ensures r.None? <==>
      "S3_BUCKET_NAME" !in vars || "FILE_KEY" !in vars || "AWS_REGION" !in vars || "EVENT_TYPE" !in vars
    ensures r.Some? ==>
      r.value.bucketName == vars["S3_BUCKET_NAME"] && r.value.fileKey == vars["FILE_KEY"]
      && r.value.region == vars["AWS_REGION"] && r.value.eventType == vars["EVENT_TYPE"]
    ensures r.Some? && "ERROR_REPORTS_PREFIX" in vars ==> r.value.errorReportsPrefix == vars["ERROR_REPORTS_PREFIX"]
    ensures r.Some? && "ERROR_REPORTS_PREFIX" !in vars ==> r.value.errorReportsPrefix == DEFAULT_REPORTS_PREFIX
  {
    var bucketName := Get(vars, "S3_BUCKET_NAME");
    var fileKey := Get(vars, "FILE_KEY");
    var region := Get(vars, "AWS_REGION");
    var eventType := Get(vars, "EVENT_TYPE");
    var prefix := Get(vars, "ERROR_REPORTS_PREFIX");
    if bucketName.None? || fileKey.None? || region.None? || eventType.None? then None
    else Some(JobParams(bucketName.value, fileKey.value, region.value, eventType.value,
      if prefix.Some? then prefix.value else DEFAULT_REPORTS_PREFIX))
  }

  /** What the world does to one run, apart from the database: whether building the
      report service throws; whether building the S3 client or creating the temporary
      file throws (both before `processFile`'s `try`); whether the download throws; the
      temporary file's `getName()`; what the CSV library yields; the two parsers; and
      the stack the JVM records for the `RuntimeException` of the writer. */
  datatype Environment = Environment(
    serviceInitError: Option<Exception>,
    setupError: Option<Exception>,
    downloadError: Option<Exception>,
    tempFileName: string,
    csv: CsvSource,
    parsers: Parsers,
    trace: seq<string>)

  /** How a reporting call is handled by the static `reportError` helper: handed to the
      service, or only logged when no service has been created. */
  datatype Delivery =
    | ToService(service: ErrorReportingService, call: ReportCall)
    | LoggedOnly(call: ReportCall)

  function Deliver(service: ErrorReportingService?, call: ReportCall): (d: Delivery)
    ensures d.call == call
    ensures d.ToService? <==> service != null
    ensures d.ToService? ==> d.service == service
  {
    if service != null then ToService(service, call) else LoggedOnly(call)
  }

  /** The report of a mode wrapper's `catch`: the temporary file's name, the mode's label
      and its `processingType` tag. */
  function WrapperReport(mode: Mode, fileName: string, e: Exception): ReportCall {
    ReportCall(fileName, mode.eventLabel, e, Some(map["processingType" := Str(mode.processingType)]))
  }

  /** The report of `processFile`'s `catch`: the object key, the raw event type, and the
      bucket and region. */
  function ProcessReport(job: JobParams, e: Exception): ReportCall {
    ReportCall(job.fileKey, job.eventType, e,
      Some(map["bucketName" := Str(job.bucketName), "region" := Str(job.region)]))
  }

  /** The report of `main`'s `catch`, without additional information. */
  function MainReport(job: JobParams, e: Exception): ReportCall {
    ReportCall(job.fileKey, job.eventType, e, None)
  }

  /** How a stage ends: the exception it throws, if any, the reports made inside it, the
      statement the writer prepared, if it got that far, and the transactions committed
      through it. */
  datatype Stage = Stage(error: Option<Exception>, reports: seq<ReportCall>, statement: Option<string>, chunks: seq<seq<Params>>)

  /** A mode wrapper (`processNewFile`, `processFileUpdate`, `processFile(File)`): decode,
      then write; a failure of either is reported once more and re-thrown. */
  function WrapperStage(mode: Mode, fileName: string, source: CsvSource, p: Parsers,
                        faults: map<Call, Exception>, trace: seq<string>): Stage
  {
    var d := Decode(fileName, source, p);
    if d.result.Failure? then
      Stage(Some(d.result.error), d.reports + [WrapperReport(mode, fileName, d.result.error)], None, [])
    else
      var run := SaveSpec(d.result.value, mode.isUpdate, faults, trace);
      if run.result.Failed? then
        Stage(Some(run.result.error), d.reports + run.reports + [WrapperReport(mode, fileName, run.result.error)],
          run.statement, run.chunks)
      else
        Stage(None, d.reports + run.reports, run.statement, run.chunks)
  }

  /** `processFile(String, ...)`: a failure before the `try` leaves unreported; one inside
      it is reported with the bucket and region and re-thrown. */
  function ObjectStage(job: JobParams, env: Environment, faults: map<Call, Exception>): Stage {
    if env.setupError.Some? then Stage(env.setupError, [], None, [])
    else
      var s :=
        if env.downloadError.Some? then Stage(env.downloadError, [], None, [])
        else WrapperStage(SelectMode(job.eventType), env.tempFileName, env.csv, env.parsers, faults, env.trace);
      if s.error.Some? then Stage(s.error, s.reports + [ProcessReport(job, s.error.value)], s.statement, s.chunks)
      else s
  }

  /** How the process ends: `main` returns, calls `System.exit`, or lets an exception out. */
  datatype JobOutcome = Finished | Exit(code: int) | Uncaught(error: Exception)

  datatype JobRun = JobRun(outcome: JobOutcome, reports: seq<ReportCall>, statement: Option<string>, chunks: seq<seq<Params>>)

  /** `main`: a missing parameter exits with 1 before anything else; a failure of
      `processFile` is reported a last time and exits with 1. */
  function Job(vars: map<string, string>, env: Environment, faults: map<Call, Exception>): JobRun {
    match JobParameters(vars)
    case None => JobRun(Exit(1), [], None, [])
    case Some(job) =>
      if env.serviceInitError.Some? then JobRun(Uncaught(env.serviceInitError.value), [], None, [])
      else
        var s := ObjectStage(job, env, faults);
        if s.error.Some? then JobRun(Exit(1), s.reports + [MainReport(job, s.error.value)], s.statement, s.chunks)
        else JobRun(Finished, s.reports, s.statement, s.chunks)
  }

  /** A mode wrapper; the three of the source differ only in the mode. */
  method ProcessWithMode(mode: Mode, fileName: string, source: CsvSource, p: Parsers, db: Database, trace: seq<string>)
    returns (error: Option<Exception>, reports: seq<ReportCall>)
    modifies db
    ensures var s := WrapperStage(mode, fileName, source, p, db.faults, trace);
      && error == s.error
      && reports == s.reports
      && db.committed == old(db.committed) + s.chunks
      && db.sql == (if s.statement.Some? then s.statement.value else old(db.sql))
    ensures WrapperStage(mode, fileName, source, p, db.faults, trace).statement.Some? ==> db.batch == [] && db.executed == []
    ensures WrapperStage(mode, fileName, source, p, db.faults, trace).statement.None? ==> unchanged(db)
  {
    var records;
    records, reports := ParseCsvFile(fileName, source, p);
    if records.Failure? {
      error := Some(records.error);
    } else {
      var result, saveReports := SaveToDatabase(records.value, mode.isUpdate, db, trace);
      reports := reports + saveReports;
      error := if result.Failed? then Some(result.error) else None;
    }
    if error.Some? {
      var additionalInfo: ReportMap := map[];
      additionalInfo := additionalInfo["processingType" := Str(mode.processingType)];
      reports := reports + [ReportCall(fileName, mode.eventLabel, error.value, Some(additionalInfo))];
    }
  }

  /** `processFile(String, ...)`. */
  method ProcessObject(job: JobParams, env: Environment, db: Database)
    returns (error: Option<Exception>, reports: seq<ReportCall>)
    modifies db
    ensures var s := ObjectStage(job, env, db.faults);
      && error == s.error
      && reports == s.reports
      && db.committed == old(db.committed) + s.chunks
      && db.sql == (if s.statement.Some? then s.statement.value else old(db.sql))
    ensures ObjectStage(job, env, db.faults).statement.Some? ==> db.batch == [] && db.executed == []
    ensures ObjectStage(job, env, db.faults).statement.None? ==> unchanged(db)
  {
    reports := [];
    if env.setupError.Some? {
      error := env.setupError;
      return;
    }
    if env.downloadError.Some? {
      error := env.downloadError;
    } else {
      error, reports := ProcessWithMode(SelectMode(job.eventType), env.tempFileName, env.csv, env.parsers, db, env.trace);
    }
    if error.Some? {
      var additionalInfo: ReportMap := map[];
      additionalInfo := additionalInfo["bucketName" := Str(job.bucketName)];
      additionalInfo := additionalInfo["region" := Str(job.region)];
      reports := reports + [ReportCall(job.fileKey, job.eventType, error.value, Some(additionalInfo))];
    }
  }

  /** `main`. Every reporting call goes through the static helper, which by then holds
      the service `main` created, so each report reaches it. */
  method RunJob(vars: map<string, string>, env: Environment, db: Database)
    returns (outcome: JobOutcome, service: ErrorReportingService?, deliveries: seq<Delivery>)
    modifies db
    ensures var run := Job(vars, env, db.faults);
      && outcome == run.outcome
      && |deliveries| == |run.reports|
      && (forall i :: 0 <= i < |deliveries| ==> deliveries[i] == Deliver(service, run.reports[i]))
      && db.committed == old(db.committed) + run.chunks
      && db.sql == (if run.statement.Some? then run.statement.value else old(db.sql))
    ensures Job(vars, env, db.faults).statement.Some? ==> db.batch == [] && db.executed == []
    ensures Job(vars, env, db.faults).statement.None? ==> unchanged(db)
    ensures JobParameters(vars).Some? && env.serviceInitError.None? ==>
      && service != null
      && service.region == JobParameters(vars).value.region
      && service.bucketName == JobParameters(vars).value.bucketName
      && service.errorReportsPrefix == JobParameters(vars).value.errorReportsPrefix
    ensures Job(vars, env, db.faults).reports != [] ==> service != null
  {
    service := null;
    deliveries := [];
    var params := JobParameters(vars);
    if params.None? {
      outcome := Exit(1);
      return;
    }
    var job := params.value;
    if env.serviceInitError.Some? {
      outcome := Uncaught(env.serviceInitError.value);
      return;
    }
    service := new ErrorReportingService(job.region, job.bucketName, job.errorReportsPrefix);
    var error, reports := ProcessObject(job, env, db);
    if error.Some? {
      reports := reports + [ReportCall(job.fileKey, job.eventType, error.value, None)];
      outcome := Exit(1);
    } else {
      outcome := Finished;
    }
    deliveries := seq(|reports|, i requires 0 <= i < |reports| => Deliver(service, reports[i]));
  }

  /** The environment lets the run reach the decoder. */
  predicate ReachesDecoder(vars: map<string, string>, env: Environment) {
    JobParameters(vars).Some? && env.serviceInitError.None? && env.setupError.None? && env.downloadError.None?
  }

  /** A row that does not decode: four reports of the same exception, in the order
      decoder, wrapper, `processFile`, `main`, then exit 1, with nothing written. */
  lemma RowFailureCascade(vars: map<string, string>, env: Environment, faults: map<Call, Exception>, k: nat)
    requires ReachesDecoder(vars, env) && env.csv.openError.None?
    requires k < |env.csv.rows|
    requires forall j :: 0 <= j < k ==> Decodes(env.csv.rows[j], env.parsers)
    requires !Decodes(env.csv.rows[k], env.parsers)
    ensures var job := JobParameters(vars).value;
      var mode := SelectMode(job.eventType);
      var e := DecodeRow(env.csv.rows[k], env.parsers).error;
      var run := Job(vars, env, faults);
      && run.outcome == Exit(1)
      && run.statement == None && run.chunks == []
      && run.reports == [
           RowReport(env.tempFileName, env.csv.rows[k], e),
           WrapperReport(mode, env.tempFileName, e),
           ProcessReport(job, e),
           MainReport(job, e)]
  {
    DecodeStopsAtFirstBadRow(env.tempFileName, env.csv, env.parsers, k);
  }

  /** The records decoded from the environment's file, when they all decode. */
  function DecodedFile(env: Environment): seq<Record>
    requires Decode(env.tempFileName, env.csv, env.parsers).result.Success?
  {
    Decode(env.tempFileName, env.csv, env.parsers).result.value
  }

  /** A statement of record `k` that fails: the writer's report carries the
      `SQLException` and the record's id, the three outer reports carry the
      `RuntimeException` wrapping it, and the chunks before record `k` stay committed. */
  lemma RecordFailureCascade(vars: map<string, string>, env: Environment, faults: map<Call, Exception>, k: nat)
    requires ReachesDecoder(vars, env)
    requires Decode(env.tempFileName, env.csv, env.parsers).result.Success?
    requires OpenCall !in faults && k < |DecodedFile(env)|
    requires forall j :: 0 <= j < k ==> RecordOk(faults, j)
    requires !RecordOk(faults, k)
    ensures var job := JobParameters(vars).value;
      var mode := SelectMode(job.eventType);
      var records := DecodedFile(env);
      var e := RecordFault(faults, k);
      var wrapped := DatabaseError(e, env.trace);
      var run := Job(vars, env, faults);
      && run.outcome == Exit(1)
      && run.statement == Some(Sql(mode.isUpdate))
      && Flatten(run.chunks) == BindAll(records, mode.isUpdate)[..FullPart(k)]
      && run.reports == [
           SqlReport(records[k], mode.isUpdate, e),
           WrapperReport(mode, env.tempFileName, wrapped),
           ProcessReport(job, wrapped),
           MainReport(job, wrapped)]
  {
    var mode := SelectMode(JobParameters(vars).value.eventType);
    DecodePreservesOrder(env.tempFileName, env.csv, env.parsers);
    SaveFailsAtRecord(DecodedFile(env), mode.isUpdate, faults, env.trace, k);
  }

  /** Only the flush of the last, partial chunk fails: three reports, none of them naming
      a record, then exit 1. */
  lemma FlushFailureCascade(vars: map<string, string>, env: Environment, faults: map<Call, Exception>)
    requires ReachesDecoder(vars, env)
    requires Decode(env.tempFileName, env.csv, env.parsers).result.Success?
    requires OpenCall !in faults
    requires forall j :: 0 <= j < |DecodedFile(env)| ==> RecordOk(faults, j)
    requires |DecodedFile(env)| % BATCH_SIZE != 0 && !FlushOk(faults, |DecodedFile(env)|)
    ensures var job := JobParameters(vars).value;
      var mode := SelectMode(job.eventType);
      var wrapped := DatabaseError(FlushFault(faults, |DecodedFile(env)|), env.trace);
      var run := Job(vars, env, faults);
      && run.outcome == Exit(1)
      && run.statement == Some(Sql(mode.isUpdate))
      && run.reports == [
           WrapperReport(mode, env.tempFileName, wrapped),
           ProcessReport(job, wrapped),
           MainReport(job, wrapped)]
      && forall i :: 0 <= i < |run.reports| ==>
           run.reports[i].additionalInfo.None? || "recordId" !in run.reports[i].additionalInfo.value
  {
    var mode := SelectMode(JobParameters(vars).value.eventType);
    DecodePreservesOrder(env.tempFileName, env.csv, env.parsers);
    SaveFailsInFinalFlush(DecodedFile(env), mode.isUpdate, faults, env.trace);
  }

  /** A run in which nothing fails returns normally, reports nothing, and commits every
      decoded record through the statement the event type selects: the update for the
      two `ObjectModified` events, the insert for every other event type. */
  lemma JobSucceeds(vars: map<string, string>, env: Environment, faults: map<Call, Exception>)
    requires ReachesDecoder(vars, env)
    requires Decode(env.tempFileName, env.csv, env.parsers).result.Success?
    requires OpenCall !in faults && CloseCall !in faults
    requires forall j :: 0 <= j < |DecodedFile(env)| ==> RecordOk(faults, j)
    requires |DecodedFile(env)| % BATCH_SIZE != 0 ==> FlushOk(faults, |DecodedFile(env)|)
    ensures var eventType := JobParameters(vars).value.eventType;
      var mode := SelectMode(eventType);
      var run := Job(vars, env, faults);
      && run.outcome == Finished
      && run.reports == []
      && run.statement == Some(if eventType in MODIFIED_EVENTS then UPDATE_SQL else INSERT_SQL)
      && Flatten(run.chunks) == BindAll(DecodedFile(env), mode.isUpdate)
  {
    var mode := SelectMode(JobParameters(vars).value.eventType);
    DecodePreservesOrder(env.tempFileName, env.csv, env.parsers);
    SaveCommitsEveryRecord(DecodedFile(env), mode.isUpdate, faults, env.trace);
  }

  /** Over all inputs: a missing parameter exits with 1 before any report; a normal
      return comes without reports; every report that is made ends in `main`'s, for the
      object key, with the exception `processFile` threw; there are at most four; and the
      only statement ever prepared, through which anything committed went, is the one
      the event type selects. */
  lemma JobReportsShape(vars: map<string, string>, env: Environment, faults: map<Call, Exception>)
    ensures var run := Job(vars, env, faults);
      && (JobParameters(vars).None? ==> run == JobRun(Exit(1), [], None, []))
      && (run.outcome == Finished ==> run.reports == [])
      && (run.outcome.Exit? ==> run.outcome.code == 1)
      && (run.reports != [] ==>
            && JobParameters(vars).Some?
            && run.outcome == Exit(1)
            && run.reports[|run.reports| - 1] == MainReport(JobParameters(vars).value, ObjectStage(JobParameters(vars).value, env, faults).error.value))
      && |run.reports| <= 4
      && (run.statement.Some? ==>
            JobParameters(vars).Some? && run.statement.value == Sql(SelectMode(JobParameters(vars).value.eventType).isUpdate))
      && (run.chunks != [] ==> run.statement.Some?)
  {
    if JobParameters(vars).Some? && env.serviceInitError.None? && env.setupError.None? && env.downloadError.None? {
      var job := JobParameters(vars).value;
      var mode := SelectMode(job.eventType);
      var d := Decode(env.tempFileName, env.csv, env.parsers);
      DecodePreservesOrder(env.tempFileName, env.csv, env.parsers);
      if d.result.Failure? {
        assert |d.reports| <= 1 by {
          if env.csv.openError.None? {
            var k := FirstBadRow(env.csv.rows, env.parsers);
            if k < |env.csv.rows| {
              DecodeStopsAtFirstBadRow(env.tempFileName, env.csv, env.parsers, k);
            }
          }
        }
      } else {
        SaveShape(d.result.value, mode.isUpdate, faults, env.trace);
      }
    }
  }
}
