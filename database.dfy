/** The relational store as the batch writer drives it: one session (a connection with
    auto-commit off and one prepared statement) over a table whose committed state is
    the sequence of transactions committed so far. Which calls throw `SQLException`
    is not visible in the job's code; a fault map names them. */
module Persistence {
  import opened Base
  import opened Records

  /** The session calls that can throw. */
  datatype Call =
    | OpenCall            // getConnection, prepareStatement and setAutoCommit(false)
    | AddCall(n: nat)     // binding and addBatch of the session's n-th statement, counted from 0
    | ExecuteCall(n: nat) // executeBatch, issued once n statements have been added
    | CommitCall(n: nat)  // commit, issued once n statements have been added
    | CloseCall           // closing the statement and the connection

  class Database {
    /** The exception each failing call throws; a call not in the map succeeds. */
    const faults: map<Call, Exception>
    /** The statement the session prepared. */
    var sql: string
    /** How many statements the session has added to its batch. */
    var added: nat
    /** The prepared statement's pending batch. */
    var batch: seq<Params>
    /** Statements executed in the open transaction and not yet committed. */
    var executed: seq<Params>
    /** The statements of every committed transaction, in commit order. */
    var committed: seq<seq<Params>>

    constructor (faults: map<Call, Exception>, committed: seq<seq<Params>>)
      ensures this.faults == faults && this.committed == committed
      ensures sql == "" && added == 0 && batch == [] && executed == []
    {
      this.faults := faults;
      this.committed := committed;
      sql := "";
      added := 0;
      batch := [];
      executed := [];
    }

    /** Acquires a connection, prepares `sql` and turns auto-commit off. */
    method Open(sql: string) returns (fault: Option<Exception>)
      modifies this
      ensures fault == Get(faults, OpenCall)
      ensures fault.None? ==> this.sql == sql && added == 0 && batch == [] && executed == []
      ensures committed == old(committed)
      ensures fault.Some? ==> unchanged(this)
    {
      fault := Get(faults, OpenCall);
      if fault.None? {
        this.sql, added, batch, executed := sql, 0, [], [];
      }
    }

    /** Binds `params` to the statement and calls `addBatch()`. */
    method AddBatch(params: Params) returns (fault: Option<Exception>)
      modifies this
      ensures fault == Get(faults, AddCall(old(added)))
      ensures fault.None? ==> added == old(added) + 1 && batch == old(batch) + [params]
      ensures fault.None? ==> sql == old(sql) && executed == old(executed) && committed == old(committed)
      ensures fault.Some? ==> unchanged(this)
    {
      fault := Get(faults, AddCall(added));
      if fault.None? {
        added, batch := added + 1, batch + [params];
      }
    }

    /** `executeBatch()`: runs the pending batch inside the open transaction. */
    method ExecuteBatch() returns (fault: Option<Exception>)
      modifies this
      ensures fault == Get(faults, ExecuteCall(added))
      ensures fault.None? ==> executed == old(executed) + old(batch) && batch == []
      ensures fault.None? ==> sql == old(sql) && added == old(added) && committed == old(committed)
      ensures fault.Some? ==> unchanged(this)
    {
      fault := Get(faults, ExecuteCall(added));
      if fault.None? {
        executed, batch := executed + batch, [];
      }
    }

    /** `commit()`: makes the executed statements one committed transaction. */
    method Commit() returns (fault: Option<Exception>)
      modifies this
      ensures fault == Get(faults, CommitCall(added))
      ensures fault.None? ==> committed == old(committed) + [old(executed)] && executed == []
      ensures fault.None? ==> sql == old(sql) && added == old(added) && batch == old(batch)
      ensures fault.Some? ==> unchanged(this)
    {
      fault := Get(faults, CommitCall(added));
      if fault.None? {
        committed, executed := committed + [executed], [];
      }
    }

    /** Closes the statement and the connection: whatever was not committed leaves the
        session, and the committed state stays as it is. */
    method Close() returns (fault: Option<Exception>)
      modifies this
      ensures fault == Get(faults, CloseCall)
      ensures batch == [] && executed == []
      ensures sql == old(sql) && added == old(added) && committed == old(committed)
    {
      fault := Get(faults, CloseCall);
      batch, executed := [], [];
    }
  }
}
