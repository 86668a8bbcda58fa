/** `saveToDatabase`: writes the decoded records through one prepared statement in
    chunks of 1000, executing and committing each full chunk and then the remainder;
    a failure while a record is in hand is reported with that record's id, and every
    failure leaves as `RuntimeException("Database error")`. */
module BatchWriter {
  import opened Base
  import opened Records
  import opened Persistence

  const BATCH_SIZE: nat := 1000

  /** `s` cut into consecutive pieces of `BATCH_SIZE`, the last one possibly shorter. */
  function Chunks<T>(s: seq<T>): seq<seq<T>>
    decreases |s|
  {
    if s == [] then []
    else if |s| <= BATCH_SIZE then [s]
    else [s[..BATCH_SIZE]] + Chunks(s[BATCH_SIZE..])
  }

  function Flatten<T>(ss: seq<seq<T>>): seq<T> {
    if ss == [] then [] else ss[0] + Flatten(ss[1..])
  }

  /** How many of `n` items the whole chunks among them hold. */
  function FullPart(n: nat): (r: nat)
    ensures r <= n && r % BATCH_SIZE == 0 && n - r == n % BATCH_SIZE
  {
    n - n % BATCH_SIZE
  }

  lemma {:induction false} ChunksFlatten<T>(s: seq<T>)
    ensures Flatten(Chunks(s)) == s
  {
    if |s| > BATCH_SIZE {
      ChunksFlatten(s[BATCH_SIZE..]);
      assert s == s[..BATCH_SIZE] + s[BATCH_SIZE..];
      assert Chunks(s)[1..] == Chunks(s[BATCH_SIZE..]);
    } else if s != [] {
      assert Chunks(s) == [s];
      assert Flatten(Chunks(s)) == s + Flatten([]);
    }
  }

  /** There are ceil(|s| / 1000) chunks, none empty, none over 1000 and all but the
      last exactly 1000. */
  lemma {:induction false} ChunksShape<T>(s: seq<T>)
    ensures |Chunks(s)| == (|s| + BATCH_SIZE - 1) / BATCH_SIZE
    ensures forall i :: 0 <= i < |Chunks(s)| ==> 0 < |Chunks(s)[i]| <= BATCH_SIZE
    ensures forall i :: 0 <= i < |Chunks(s)| - 1 ==> |Chunks(s)[i]| == BATCH_SIZE
  {
    if |s| > BATCH_SIZE {
      var rest := s[BATCH_SIZE..];
      ChunksShape(rest);
      assert Chunks(s) == [s[..BATCH_SIZE]] + Chunks(rest);
      assert (|s| + BATCH_SIZE - 1) / BATCH_SIZE == (|rest| + BATCH_SIZE - 1) / BATCH_SIZE + 1;
    }
  }

  /** When `|s|` is a multiple of 1000 every chunk is full. */
  lemma {:induction false} ChunksFull<T>(s: seq<T>)
    requires |s| % BATCH_SIZE == 0
    ensures |Chunks(s)| == |s| / BATCH_SIZE
    ensures forall i :: 0 <= i < |Chunks(s)| ==> |Chunks(s)[i]| == BATCH_SIZE
  {
    if |s| == BATCH_SIZE {
      assert Chunks(s) == [s];
    } else if s != [] {
      var rest := s[BATCH_SIZE..];
      ChunksFull(rest);
      assert Chunks(s) == [s[..BATCH_SIZE]] + Chunks(rest);
    }
  }

  /** Appending a chunk's worth or less to whole chunks adds one chunk at the end. */
  lemma {:induction false} ChunksAppend<T>(a: seq<T>, b: seq<T>)
    requires |a| % BATCH_SIZE == 0
    requires 0 < |b| <= BATCH_SIZE
    ensures Chunks(a + b) == Chunks(a) + [b]
  {
    if a == [] {
      assert a + b == b;
    } else {
      var rest := a[BATCH_SIZE..];
      assert (a + b)[..BATCH_SIZE] == a[..BATCH_SIZE];
      assert (a + b)[BATCH_SIZE..] == rest + b;
      ChunksAppend(rest, b);
    }
  }

  lemma FullPartStep(i: nat)
    ensures (i + 1) % BATCH_SIZE != 0 ==> FullPart(i + 1) == FullPart(i)
    ensures (i + 1) % BATCH_SIZE == 0 ==> FullPart(i + 1) == i + 1 && FullPart(i) + BATCH_SIZE == i + 1
  {
  }

  /** The chunk-closing `executeBatch` and `commit` issued once `n` statements are added both succeed. */
  predicate FlushOk(faults: map<Call, Exception>, n: nat) {
    ExecuteCall(n) !in faults && CommitCall(n) !in faults
  }

  function FlushFault(faults: map<Call, Exception>, n: nat): Exception
    requires !FlushOk(faults, n)
  {
    if ExecuteCall(n) in faults then faults[ExecuteCall(n)] else faults[CommitCall(n)]
  }

  /** Record `i` (from 0) gets through the loop's inner `try`: its `addBatch` succeeds and,
      when it completes a chunk, so do that chunk's `executeBatch` and `commit`. */
  predicate RecordOk(faults: map<Call, Exception>, i: nat) {
    AddCall(i) !in faults && ((i + 1) % BATCH_SIZE == 0 ==> FlushOk(faults, i + 1))
  }

  /** The `SQLException` raised while record `i` is in hand. */
  function RecordFault(faults: map<Call, Exception>, i: nat): Exception
    requires !RecordOk(faults, i)
  {
    if AddCall(i) in faults then faults[AddCall(i)] else FlushFault(faults, i + 1)
  }

  /** The index of the record in hand when the loop fails, or `n` when it does not. */
  function FirstBadRecord(faults: map<Call, Exception>, n: nat): (k: nat)
    ensures k <= n
    ensures forall j :: 0 <= j < k ==> RecordOk(faults, j)
    ensures k < n ==> !RecordOk(faults, k)
  {
    var ok := (j: nat) => RecordOk(faults, j);
    var k := FirstFailing(n, ok);
    assert forall j :: 0 <= j < k ==> RecordOk(faults, j) by {
      forall j | 0 <= j < k ensures RecordOk(faults, j) {
        assert ok(j);
      }
    }
    k
  }

  datatype SaveResult = Saved(count: nat) | Failed(error: Exception)

  /** `new RuntimeException("Database error", cause)`; `trace` is the stack the JVM records for it. */
  function DatabaseError(cause: Exception, trace: seq<string>): Exception {
    Exception("java.lang.RuntimeException", Some("Database error"), trace, Some(cause))
  }

  /** The report made when record `r` is in hand as `e` is raised. */
  function SqlReport(r: Record, isUpdate: bool, e: Exception): ReportCall {
    ReportCall("DatabaseOperation", "SQLException", e,
      Some(map["recordId" := Str(r.id), "isUpdate" := Bool(isUpdate)]))
  }

  /** One run of the writer: the statement its session prepared (none when acquiring the
      session fails), the transactions it commits through that statement, how it ends,
      and its reports. */
  datatype Run = Run(statement: Option<string>, chunks: seq<seq<Params>>, result: SaveResult, reports: seq<ReportCall>)

  /** The run of the writer over `records`, stated without the loop: the first failing
      call decides, and everything committed before it stays committed. */
  function SaveSpec(records: seq<Record>, isUpdate: bool, faults: map<Call, Exception>, trace: seq<string>): Run {
    var ps := BindAll(records, isUpdate);
    var n := |records|;
    if OpenCall in faults then
      Run(None, [], Failed(DatabaseError(faults[OpenCall], trace)), [])
    else
      var k := FirstBadRecord(faults, n);
      if k < n then
        var e := RecordFault(faults, k);
        Run(Some(Sql(isUpdate)), Chunks(ps[..FullPart(k)]), Failed(DatabaseError(e, trace)), [SqlReport(records[k], isUpdate, e)])
      else if n % BATCH_SIZE != 0 && !FlushOk(faults, n) then
        Run(Some(Sql(isUpdate)), Chunks(ps[..FullPart(n)]), Failed(DatabaseError(FlushFault(faults, n), trace)), [])
      else if CloseCall in faults then
        Run(Some(Sql(isUpdate)), Chunks(ps), Failed(DatabaseError(faults[CloseCall], trace)), [])
      else
        Run(Some(Sql(isUpdate)), Chunks(ps), Saved(n), [])
  }

  /** Closing a full chunk: the chunks of the first `i + 1` statements are those of the
      whole chunks before statement `i` and the pending batch. */
  lemma ChunkClosed(ps: seq<Params>, i: nat)
    requires i < |ps| && (i + 1) % BATCH_SIZE == 0
    ensures FullPart(i + 1) == i + 1
    ensures Chunks(ps[..FullPart(i)]) + [ps[FullPart(i)..i + 1]] == Chunks(ps[..FullPart(i + 1)])
  {
    FullPartStep(i);
    assert ps[..i + 1] == ps[..FullPart(i)] + ps[FullPart(i)..i + 1];
    ChunksAppend(ps[..FullPart(i)], ps[FullPart(i)..i + 1]);
  }

  /** The final flush: the whole chunks and the remainder make up all the chunks. */
  lemma RemainderClosed(ps: seq<Params>)
    requires |ps| % BATCH_SIZE != 0
    ensures Chunks(ps[..FullPart(|ps|)]) + [ps[FullPart(|ps|)..]] == Chunks(ps)
  {
    assert ps == ps[..FullPart(|ps|)] + ps[FullPart(|ps|)..];
    ChunksAppend(ps[..FullPart(|ps|)], ps[FullPart(|ps|)..]);
  }

  /** `FirstBadRecord` is the index of the first record that fails. */
  lemma FirstBadRecordIs(faults: map<Call, Exception>, n: nat, k: nat)
    requires k <= n
    requires forall j :: 0 <= j < k ==> RecordOk(faults, j)
    requires k < n ==> !RecordOk(faults, k)
    ensures FirstBadRecord(faults, n) == k
  {
  }

  /** `executeBatch()` then `commit()`, the pair that closes a chunk; the commit is not
      issued when the execution throws. */
  method Flush(db: Database) returns (fault: Option<Exception>)
    requires db.executed == []
    modifies db
    ensures fault.None? <==> FlushOk(db.faults, db.added)
    ensures fault.Some? ==> fault.value == FlushFault(db.faults, db.added)
    ensures db.sql == old(db.sql) && db.added == old(db.added)
    ensures fault.None? ==> db.committed == old(db.committed) + [old(db.batch)] && db.batch == [] && db.executed == []
    ensures fault.Some? ==> db.committed == old(db.committed)
  {
    fault := db.ExecuteBatch();
    if fault.None? {
      assert db.executed == old(db.batch);
      fault := db.Commit();
    }
  }

  /** The loop's inner `try` for one record: `addBatch` with the record's parameters and,
      when that completes a chunk, the chunk's flush. */
  method AddRecord(db: Database, params: Params) returns (fault: Option<Exception>)
    requires db.executed == []
    modifies db
    ensures fault.None? <==> RecordOk(db.faults, old(db.added))
    ensures fault.Some? ==> fault.value == RecordFault(db.faults, old(db.added))
    ensures db.sql == old(db.sql)
    ensures fault.Some? ==> db.committed == old(db.committed)
    ensures fault.None? ==> db.added == old(db.added) + 1 && db.executed == []
    ensures fault.None? && db.added % BATCH_SIZE == 0 ==>
      db.committed == old(db.committed) + [old(db.batch) + [params]] && db.batch == []
    ensures fault.None? && db.added % BATCH_SIZE != 0 ==>
      db.committed == old(db.committed) && db.batch == old(db.batch) + [params]
  {
    fault := db.AddBatch(params);
    if fault.None? && db.added % BATCH_SIZE == 0 {
      fault := Flush(db);
    }
  }

  /** The `for` loop over the records with its inner `try`: adds every record's
      parameters, closing each full chunk, and stops with the record in hand at the first
      `SQLException`. On return `count` is that record's index, or the number of records
      when none fails. */
  method AddRecords(records: seq<Record>, isUpdate: bool, db: Database)
    returns (count: nat, fault: Option<Exception>)
    requires db.added == 0 && db.batch == [] && db.executed == []
    modifies db
    ensures count == FirstBadRecord(db.faults, |records|)
    ensures fault.Some? <==> count < |records|
    ensures fault.Some? ==> fault.value == RecordFault(db.faults, count)
    ensures db.sql == old(db.sql)
    ensures db.committed == old(db.committed) + Chunks(BindAll(records, isUpdate)[..FullPart(count)])
    ensures fault.None? ==>
      db.added == |records| && db.executed == []
      && db.batch == BindAll(records, isUpdate)[FullPart(|records|)..]
  {
    ghost var ps := BindAll(records, isUpdate);
    count := 0;
    fault := None;
    while count < |records|
      invariant 0 <= count <= |records|
      invariant fault.None?
      invariant db.added == count
      invariant forall j :: 0 <= j < count ==> RecordOk(db.faults, j)
      invariant db.batch == ps[FullPart(count)..count]
      invariant db.executed == []
      invariant db.sql == old(db.sql)
      invariant db.committed == old(db.committed) + Chunks(ps[..FullPart(count)])
    {
      ghost var i := count;
      FullPartStep(i);
      fault := AddRecord(db, Bind(records[count], isUpdate));
      if fault.Some? {
        FirstBadRecordIs(db.faults, |records|, i);
        return;
      }
      count := count + 1;
      assert ps[FullPart(i)..i] + [ps[i]] == ps[FullPart(i)..count];
      if count % BATCH_SIZE == 0 {
        ChunkClosed(ps, i);
      }
    }
    FirstBadRecordIs(db.faults, |records|, count);
  }

  method SaveToDatabase(records: seq<Record>, isUpdate: bool, db: Database, trace: seq<string>)
    returns (result: SaveResult, reports: seq<ReportCall>)
    modifies db
    ensures var run := SaveSpec(records, isUpdate, db.faults, trace);
      && result == run.result
      && reports == run.reports
      && db.committed == old(db.committed) + run.chunks
      && db.sql == (if run.statement.Some? then run.statement.value else old(db.sql))
    // The try-with-resources closes the session on every path once it is open.
    ensures SaveSpec(records, isUpdate, db.faults, trace).statement.Some? ==> db.batch == [] && db.executed == []
    ensures SaveSpec(records, isUpdate, db.faults, trace).statement.None? ==> unchanged(db)
  {
    reports := [];
    var fault := db.Open(Sql(isUpdate));
    if fault.Some? {
      result := Failed(DatabaseError(fault.value, trace));
      return;
    }
    var count;
    count, fault := AddRecords(records, isUpdate, db);
    if fault.Some? {
      reports := reports + [SqlReport(records[count], isUpdate, fault.value)];
      var suppressed := db.Close();
      result := Failed(DatabaseError(fault.value, trace));
      return;
    }
    ghost var ps := BindAll(records, isUpdate);
    assert ps[..count] == ps;
    if count % BATCH_SIZE != 0 {
      fault := Flush(db);
      if fault.Some? {
        var suppressed := db.Close();
        result := Failed(DatabaseError(fault.value, trace));
        return;
      }
      RemainderClosed(ps);
    }
    fault := db.Close();
    if fault.Some? {
      result := Failed(DatabaseError(fault.value, trace));
    } else {
      result := Saved(|records|);
    }
  }

  /** Without a failing call every record is committed, in order, in ceil(n / 1000)
      transactions of 1000 statements each but the last, which holds the rest; no
      records give no transaction. */
  lemma SaveCommitsEveryRecord(records: seq<Record>, isUpdate: bool, faults: map<Call, Exception>, trace: seq<string>)
    requires OpenCall !in faults && CloseCall !in faults
    requires forall j :: 0 <= j < |records| ==> RecordOk(faults, j)
    requires |records| % BATCH_SIZE != 0 ==> FlushOk(faults, |records|)
    ensures var run := SaveSpec(records, isUpdate, faults, trace);
      && run.statement == Some(Sql(isUpdate))
      && run.result == Saved(|records|)
      && run.reports == []
      && Flatten(run.chunks) == BindAll(records, isUpdate)
      && |run.chunks| == (|records| + BATCH_SIZE - 1) / BATCH_SIZE
      && (forall i :: 0 <= i < |run.chunks| ==> 0 < |run.chunks[i]| <= BATCH_SIZE)
      && (forall i :: 0 <= i < |run.chunks| - 1 ==> |run.chunks[i]| == BATCH_SIZE)
  {
    var ps := BindAll(records, isUpdate);
    FirstBadRecordIs(faults, |records|, |records|);
    ChunksFlatten(ps);
    ChunksShape(ps);
  }

  /** When record `k` is the first whose `addBatch`, or whose chunk's flush, throws:
      the chunks completed before it stay committed, the open chunk is lost, exactly one
      report names record `k`'s id and the mode, and the `SQLException` leaves wrapped. */
  lemma SaveFailsAtRecord(records: seq<Record>, isUpdate: bool, faults: map<Call, Exception>, trace: seq<string>, k: nat)
    requires OpenCall !in faults && k < |records|
    requires forall j :: 0 <= j < k ==> RecordOk(faults, j)
    requires !RecordOk(faults, k)
    ensures var run := SaveSpec(records, isUpdate, faults, trace);
      && run.statement == Some(Sql(isUpdate))
      && run.result == Failed(DatabaseError(RecordFault(faults, k), trace))
      && run.reports == [SqlReport(records[k], isUpdate, RecordFault(faults, k))]
      && run.reports[0].additionalInfo == Some(map["recordId" := Str(records[k].id), "isUpdate" := Bool(isUpdate)])
      && Flatten(run.chunks) == BindAll(records, isUpdate)[..FullPart(k)]
      && |run.chunks| == k / BATCH_SIZE
      && (forall i :: 0 <= i < |run.chunks| ==> |run.chunks[i]| == BATCH_SIZE)
  {
    var done := BindAll(records, isUpdate)[..FullPart(k)];
    FirstBadRecordIs(faults, |records|, k);
    ChunksFlatten(done);
    ChunksFull(done);
  }

  /** When only the flush of the last, partial chunk fails: the full chunks stay
      committed, the remainder is lost, and nothing is reported, since no record is in
      hand outside the loop. */
  lemma SaveFailsInFinalFlush(records: seq<Record>, isUpdate: bool, faults: map<Call, Exception>, trace: seq<string>)
    requires OpenCall !in faults
    requires forall j :: 0 <= j < |records| ==> RecordOk(faults, j)
    requires |records| % BATCH_SIZE != 0 && !FlushOk(faults, |records|)
    ensures var run := SaveSpec(records, isUpdate, faults, trace);
      && run.statement == Some(Sql(isUpdate))
      && run.result == Failed(DatabaseError(FlushFault(faults, |records|), trace))
      && run.reports == []
      && Flatten(run.chunks) == BindAll(records, isUpdate)[..FullPart(|records|)]
      && |run.chunks| == |records| / BATCH_SIZE
      && (forall i :: 0 <= i < |run.chunks| ==> |run.chunks[i]| == BATCH_SIZE)
  {
    var done := BindAll(records, isUpdate)[..FullPart(|records|)];
    FirstBadRecordIs(faults, |records|, |records|);
    ChunksFlatten(done);
    ChunksFull(done);
  }

  /** Over every fault map: what is committed is a prefix of the statements in record
      order, cut into chunks of 1000 with only the last one possibly shorter; the run
      saves exactly when no call fails, and then saves everything; there is at most one
      report; and every failure leaves as `RuntimeException("Database error")` caused by
      the `SQLException`, the one a report carries when there is one. */
  lemma SaveShape(records: seq<Record>, isUpdate: bool, faults: map<Call, Exception>, trace: seq<string>)
    ensures var run := SaveSpec(records, isUpdate, faults, trace);
      var ps := BindAll(records, isUpdate);
      var m := |Flatten(run.chunks)|;
      && run.statement == (if OpenCall in faults then None else Some(Sql(isUpdate)))
      && (OpenCall in faults ==> run.chunks == [])
      && m <= |records| && Flatten(run.chunks) == ps[..m]
      && (forall i :: 0 <= i < |run.chunks| ==> 0 < |run.chunks[i]| <= BATCH_SIZE)
      && (forall i :: 0 <= i < |run.chunks| - 1 ==> |run.chunks[i]| == BATCH_SIZE)
      && (run.result.Saved? <==>
            OpenCall !in faults && CloseCall !in faults
            && (forall j :: 0 <= j < |records| ==> RecordOk(faults, j))
            && (|records| % BATCH_SIZE != 0 ==> FlushOk(faults, |records|)))
      && (run.result.Saved? ==> run.result.count == |records| && m == |records|)
      && (run.result.Failed? ==>
            run.result.error.className == "java.lang.RuntimeException"
            && run.result.error.message == Some("Database error")
            && run.result.error.cause.Some?)
      && |run.reports| <= 1
      && (run.reports != [] ==> run.result.Failed? && run.reports[0].error == run.result.error.cause.value)
  {
    var ps := BindAll(records, isUpdate);
    var n := |records|;
    if OpenCall !in faults {
      var k := FirstBadRecord(faults, n);
      if k < n {
        SaveFailsAtRecord(records, isUpdate, faults, trace, k);
        ChunksShape(ps[..FullPart(k)]);
        assert ps[..FullPart(k)] == ps[..|Flatten(SaveSpec(records, isUpdate, faults, trace).chunks)|];
      } else if n % BATCH_SIZE != 0 && !FlushOk(faults, n) {
        SaveFailsInFinalFlush(records, isUpdate, faults, trace);
        ChunksShape(ps[..FullPart(n)]);
      } else {
        ChunksFlatten(ps);
        ChunksShape(ps);
        assert ps[..n] == ps;
      }
    }
  }

  /** 2500 records whose first 2000 get through, with the run failing afterwards (at a
      later record or in the final flush): exactly the first two transactions, 2000
      statements, remain committed. */
  lemma SaveKeepsCompletedChunks(records: seq<Record>, isUpdate: bool, faults: map<Call, Exception>, trace: seq<string>)
    requires |records| == 2500 && OpenCall !in faults && CloseCall !in faults
    requires forall j :: 0 <= j < 2000 ==> RecordOk(faults, j)
    requires SaveSpec(records, isUpdate, faults, trace).result.Failed?
    ensures var run := SaveSpec(records, isUpdate, faults, trace);
      |run.chunks| == 2 && Flatten(run.chunks) == BindAll(records, isUpdate)[..2000]
  {
    var k := FirstBadRecord(faults, 2500);
    if k < 2500 {
      SaveFailsAtRecord(records, isUpdate, faults, trace, k);
    } else {
      SaveFailsInFinalFlush(records, isUpdate, faults, trace);
    }
  }
}
