/** The error sink: `ErrorReportingService` builds a JSON error report from a failure,
    names it by the time of day, and uploads it to the object store, never letting a
    failure of its own reach the caller. */
module ErrorReporting {
  import opened Base
  import opened TimeFormat

  const REPORT_SUFFIX := "-error-report.json"
  const JSON_CONTENT_TYPE := "application/json"

  /** The six keys every report starts with. */
  const BASE_KEYS: set<string> := {"timestamp", "fileKey", "eventType", "errorType", "errorMessage", "stackTrace"}

  /** `getStackTraceAsString`: every frame's text followed by a newline, in frame order. */
  function StackTraceText(frames: seq<string>): string {
    if frames == [] then ""
    else StackTraceText(frames[..|frames| - 1]) + frames[|frames| - 1] + "\n"
  }

  /** The storage key of a report: the configured prefix, a slash, the key stamp of the
      clock reading and a fixed suffix (`String.format("%s/%s-error-report.json", ...)`). */
  function ReportKey(prefix: string, now: DateTime): string {
    prefix + "/" + KeyStamp(now) + REPORT_SUFFIX
  }

  /** The report map before `additionalInfo` is merged in. */
  function BaseReport(fileKey: string, eventType: string, error: Exception, now: DateTime): ReportMap {
    map[
      "timestamp" := Str(IsoText(now)),
      "fileKey" := Str(fileKey),
      "eventType" := Str(eventType),
      "errorType" := Str(error.className),
      "errorMessage" := (if error.message.Some? then Str(error.message.value) else Null),
      "stackTrace" := Str(StackTraceText(error.stackTrace))]
  }

  /** What `putObject` is handed: bucket, key, content type, content length and body. */
  datatype PutRequest = PutRequest(
    bucket: string,
    key: string,
    contentType: string,
    contentLength: int,
    body: seq<byte>)

  /** How one `reportError` call ends; in both cases it returns normally. */
  datatype ReportOutcome =
    | Uploaded(request: PutRequest)
    | Swallowed(error: Exception)

  class ErrorReportingService {
    const region: string
    const bucketName: string
    const errorReportsPrefix: string

    constructor (region: string, bucketName: string, errorReportsPrefix: string)
      ensures this.region == region
      ensures this.bucketName == bucketName
      ensures this.errorReportsPrefix == errorReportsPrefix
    {
      this.region := region;
      this.bucketName := bucketName;
      this.errorReportsPrefix := errorReportsPrefix;
    }

    /** `reportError`. The clock is read twice (`firstNow` for the body's timestamp,
        `secondNow` for the key), `serialize` stands for Jackson's `writeValueAsString`
        followed by `getBytes()`, and `putFault` is what `putObject` throws, if anything. */
    method ReportError(
      fileKey: string, eventType: string, error: Exception, additionalInfo: Option<ReportMap>,
      firstNow: DateTime, secondNow: DateTime,
      serialize: ReportMap -> Result<seq<byte>, Exception>, putFault: Option<Exception>)
      returns (report: ReportMap, outcome: ReportOutcome)
      ensures additionalInfo.None? ==> report == BaseReport(fileKey, eventType, error, firstNow)
      ensures additionalInfo.Some? ==>
        report.Keys == BASE_KEYS + additionalInfo.value.Keys
      ensures additionalInfo.Some? ==>
        forall k :: k in additionalInfo.value ==> report[k] == additionalInfo.value[k]
      ensures additionalInfo.Some? ==>
        forall k :: k in BASE_KEYS && k !in additionalInfo.value ==>
          report[k] == BaseReport(fileKey, eventType, error, firstNow)[k]
      ensures serialize(report).Failure? ==> outcome == Swallowed(serialize(report).error)
      ensures serialize(report).Success? && putFault.Some? ==> outcome == Swallowed(putFault.value)
      ensures serialize(report).Success? && putFault.None? ==>
        outcome == Uploaded(PutRequest(
          bucketName, ReportKey(errorReportsPrefix, secondNow), JSON_CONTENT_TYPE,
          |serialize(report).value|, serialize(report).value))
    {
      report := map[];
      report := report["timestamp" := Str(IsoText(firstNow))];
      report := report["fileKey" := Str(fileKey)];
      report := report["eventType" := Str(eventType)];
      report := report["errorType" := Str(error.className)];
      report := report["errorMessage" := if error.message.Some? then Str(error.message.value) else Null];
      var trace := StackTraceAsString(error.stackTrace);
      report := report["stackTrace" := Str(trace)];
      assert report == BaseReport(fileKey, eventType, error, firstNow);
      if additionalInfo.Some? {
        report := report + additionalInfo.value;
      }

      var json := serialize(report);
      if json.Failure? {
        outcome := Swallowed(json.error);
        return;
      }
      var reportKey := ReportKey(errorReportsPrefix, secondNow);
      var request := PutRequest(bucketName, reportKey, JSON_CONTENT_TYPE, |json.value|, json.value);
      if putFault.Some? {
        outcome := Swallowed(putFault.value);
      } else {
        outcome := Uploaded(request);
      }
    }
  }

  /** The loop of `getStackTraceAsString` over a `StringBuilder`. */
  method StackTraceAsString(frames: seq<string>) returns (s: string)
    ensures s == StackTraceText(frames)
  {
    s := "";
    var i := 0;
    while i < |frames|
      invariant 0 <= i <= |frames|
      invariant s == StackTraceText(frames[..i])
    {
      assert frames[..i + 1][..i] == frames[..i];
      s := s + frames[i] + "\n";
      i := i + 1;
    }
    assert frames[..i] == frames;
  }

  /** Splits text into the lines it holds, each ended by a newline; a last piece
      without a newline counts as a line too. */
  function Lines(s: string): seq<string>
    decreases |s|
  {
    if s == [] then []
    else
      var k := NewlineIndex(s);
      if k == |s| then [s] else [s[..k]] + Lines(s[k + 1..])
  }

  /** The index of the first newline in `s`, or `|s|` when there is none. */
  function NewlineIndex(s: string): (k: nat)
    ensures k <= |s|
    ensures k < |s| ==> s[k] == '\n'
    ensures forall j :: 0 <= j < k ==> s[j] != '\n'
  {
    if s == [] then 0 else if s[0] == '\n' then 0 else 1 + NewlineIndex(s[1..])
  }

  lemma {:induction false} StackTraceTextCons(frames: seq<string>)
    requires frames != []
    ensures StackTraceText(frames) == frames[0] + "\n" + StackTraceText(frames[1..])
  {
    if |frames| > 1 {
      var init := frames[..|frames| - 1];
      StackTraceTextCons(init);
      assert init[1..] == frames[1..][..|frames[1..]| - 1];
    }
  }

  lemma {:induction false} NewlineIndexAfterLine(line: string, rest: string)
    requires '\n' !in line
    ensures NewlineIndex(line + "\n" + rest) == |line|
  {
    if line != [] {
      assert (line + "\n" + rest)[1..] == line[1..] + "\n" + rest;
      assert line[0] in line;
      NewlineIndexAfterLine(line[1..], rest);
    }
  }

  /** Splitting the stack-trace text at its newlines gives back the frames, provided
      no frame text holds a newline of its own. */
  lemma {:induction false} StackTraceLinesRoundTrip(frames: seq<string>)
    requires forall i :: 0 <= i < |frames| ==> '\n' !in frames[i]
    ensures Lines(StackTraceText(frames)) == frames
  {
    if frames != [] {
      StackTraceTextCons(frames);
      var f, rest := frames[0], StackTraceText(frames[1..]);
      var s := f + "\n" + rest;
      NewlineIndexAfterLine(f, rest);
      assert s[..|f|] == f;
      assert s[|f| + 1..] == rest;
      StackTraceLinesRoundTrip(frames[1..]);
      assert Lines(s) == [f] + Lines(rest);
    }
  }

  /** The stack-trace text holds one newline per frame when frame texts hold none;
      no frames give the empty string. */
  lemma {:induction false} StackTraceNewlines(frames: seq<string>)
    requires forall i :: 0 <= i < |frames| ==> '\n' !in frames[i]
    ensures multiset(StackTraceText(frames))['\n'] == |frames|
    ensures frames == [] <==> StackTraceText(frames) == ""
  {
    if frames != [] {
      var init := frames[..|frames| - 1];
      StackTraceNewlines(init);
      var last := frames[|frames| - 1];
      assert multiset(last)['\n'] == 0;
      assert StackTraceText(frames) == StackTraceText(init) + last + "\n";
    }
  }

  /** Two reports under one prefix, whose clock readings have four-digit years, get the
      same key exactly when the readings fall in the same second. */
  lemma ReportKeyIdentifiesSecond(prefix: string, t1: DateTime, t2: DateTime)
    requires t1.year <= 9999 && t2.year <= 9999
    ensures ReportKey(prefix, t1) == ReportKey(prefix, t2) <==> ToSeconds(t1) == ToSeconds(t2)
  {
    KeyStampIdentifiesSecond(t1, t2);
    KeyStampRoundTrip(t1);
    KeyStampRoundTrip(t2);
    var n := |prefix| + 1;
    if ReportKey(prefix, t1) == ReportKey(prefix, t2) {
      assert ReportKey(prefix, t1)[n..n + 19] == KeyStamp(t1);
      assert ReportKey(prefix, t2)[n..n + 19] == KeyStamp(t2);
    }
  }

  /** A report key starts with the prefix and a slash and ends with the fixed suffix. */
  lemma ReportKeyShape(prefix: string, now: DateTime)
    requires now.year <= 9999
    ensures |ReportKey(prefix, now)| == |prefix| + 1 + 19 + |REPORT_SUFFIX|
    ensures ReportKey(prefix, now)[..|prefix| + 1] == prefix + "/"
    ensures ReportKey(prefix, now)[|prefix| + 20..] == REPORT_SUFFIX
  {
    KeyStampRoundTrip(now);
  }

  /** The base report has exactly the six base keys. */
  lemma BaseReportKeys(fileKey: string, eventType: string, error: Exception, now: DateTime)
    ensures BaseReport(fileKey, eventType, error, now).Keys == BASE_KEYS
    ensures |BASE_KEYS| == 6
  {
  }
}
