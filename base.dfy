/** Values shared by every part of the ingestion job: optional and failing results,
    the Java exceptions that travel through the pipeline, the loosely typed values an
    error report holds, and one call of the job's error-reporting helper. */
module Base {

  datatype Option<+T> = None | Some(value: T)

  /** A computation that either yields a value or throws an exception. */
  datatype Result<+T, +E> = Success(value: T) | Failure(error: E) {
    predicate IsFailure() {
      Failure?
    }

    function PropagateFailure<U>(): Result<U, E>
      requires Failure?
    {
      Failure(error)
    }

    function Extract(): T
      requires Success?
    {
      value
    }
  }

  /** The value of key `k` in `m`, as a Java `Map.get` would return it (absent is null). */
  function Get<K, V>(m: map<K, V>, k: K): (r: Option<V>)
    ensures r.Some? <==> k in m
    ensures r.Some? ==> r.value == m[k]
  {
    if k in m then Some(m[k]) else None
  }

  /** A Java exception as far as the job observes it: the name of its class,
      `getMessage()` (which may be null), the text of every `getStackTrace()` frame
      and the exception it wraps, if any. */
  datatype Exception = Exception(
    className: string,
    message: Option<string>,
    stackTrace: seq<string>,
    cause: Option<Exception>)

  type byte = b: int | 0 <= b < 256

  /** The values that the job puts into an error report's map. */
  datatype Value =
    | Str(s: string)
    | Null
    | Long(n: int)
    | Bool(b: bool)
    | StrMap(m: map<string, string>)

  type ReportMap = map<string, Value>

  /** The arguments of one call of the job's `reportError(fileKey, eventType, error,
      additionalInfo)` helper; `None` stands for a null `additionalInfo`. */
  datatype ReportCall = ReportCall(
    fileKey: string,
    eventType: string,
    error: Exception,
    additionalInfo: Option<ReportMap>)

  /** The least `k` below `n` at which `ok` fails, or `n` when `ok` holds on all of `[0, n)`:
      the position where a fail-fast loop over `n` items stops. */
  function FirstFailing(n: nat, ok: nat -> bool): (k: nat)
    ensures k <= n
    ensures forall j :: 0 <= j < k ==> ok(j)
    ensures k < n ==> !ok(k)
  {
    if n == 0 then 0
    else
      var k := FirstFailing(n - 1, ok);
      if k < n - 1 then k else if ok(n - 1) then n else n - 1
  }
}
