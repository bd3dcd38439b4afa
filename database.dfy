/**
 * The SQLite connection as the storage code sees it. Every call the code makes
 * on the connection or on one of its queries is appended to `calls`; which
 * calls report an error (`failing`, by position in `calls`) and which rows the
 * select of the `_migrations` table yields (`rows`) are fixed by the
 * environment. SQL text is passed through unread. Every error the connection
 * reports is a `kDatabaseError`, so the storage code's re-wrapping of errors
 * as `kDatabaseError` with the same message leaves them unchanged.
 */
module Database {
  import opened Wrappers
  import opened Schema

  datatype ErrorType = kDatabaseError | kDatabaseManager | kEventHandlerError

  /** The message of an error: one of the code's own, or the connection's for a failed call. */
  datatype Message = Text(text: string) | FailedCall(position: nat)

  datatype Error = Error(errorType: ErrorType, message: Message)

  /**
   * The prepared statements the code builds. The migration statements carry
   * their SQL text; the event inserts are named by the entry type they store.
   */
  datatype Statement =
    | CreateMigrationsTable
    | SelectMigrations
    | InsertMigration
    | MigrationSql(sql: string)
    | InsertEvent(entryType: EntryType)
    | InsertModifier(entryType: EntryType)

  datatype Call =
    | Connect(database: string)
    | Transaction
    | Commit
    | Rollback
    | BuildQuery(statement: Statement)
    | BindInt(statement: Statement, position: int, value: int)
    | BindChars(statement: Statement, position: int, text: string)
    | Next(statement: Statement)
    | NextWhile(statement: Statement)
    | Exec(statement: Statement)
    | Reset(statement: Statement)

  /** A row of `_migrations`: each column read can fail. */
  datatype StoredRow = StoredRow(version: Option<int>, checksum: Option<string>)

  /** The error a failing call at `position` reports. */
  function CallError(position: nat): Error {
    Error(kDatabaseError, FailedCall(position))
  }

  class Connection {
    var calls: seq<Call>
    /** The positions in `calls` of the calls that reported an error, in order. */
    ghost var failed: seq<nat>
    /** Rows the current select has stepped over. */
    var cursor: nat
    const failing: set<nat>
    const rows: seq<StoredRow>

    constructor(failing: set<nat>, rows: seq<StoredRow>)
      ensures calls == [] && failed == [] && cursor == 0
      ensures this.failing == failing && this.rows == rows
    {
      this.failing := failing;
      this.rows := rows;
      calls := [];
      failed := [];
      cursor := 0;
    }

    /** The last call reported an error, and it is the only one since `before`. */
    ghost predicate FailedLast(before: seq<nat>)
      reads this
    {
      |calls| > 0 && |calls| - 1 in failing && failed == before + [|calls| - 1]
    }

    /** Issues one call whose result is checked; it fails iff its position is in `failing`. */
    method Issue(call: Call) returns (r: Result<(), Error>)
      modifies this`calls, this`failed
      ensures calls == old(calls) + [call]
      ensures r.Ok? <==> |old(calls)| !in failing
      ensures r.Ok? ==> failed == old(failed)
      ensures r.Err? ==> FailedLast(old(failed)) && r.error == CallError(|old(calls)|)
    {
      if |calls| in failing {
        r := Err(CallError(|calls|));
        failed := failed + [|calls|];
      } else {
        r := Ok(());
      }
      calls := calls + [call];
    }

    /** `BuildQuery`: prepares a statement; its result is not checked. */
    method Build(statement: Statement)
      modifies this`calls, this`cursor
      ensures calls == old(calls) + [BuildQuery(statement)] && cursor == 0
    {
      calls := calls + [BuildQuery(statement)];
      cursor := 0;
    }

    /** Binds a value; the result is not checked. */
    method Bind(call: Call)
      requires call.BindInt? || call.BindChars?
      modifies this`calls
      ensures calls == old(calls) + [call]
    {
      calls := calls + [call];
    }

    /** `Next` on the select of `_migrations`: true while there is another row. */
    method NextRow(statement: Statement) returns (r: Result<bool, Error>)
      modifies this`calls, this`failed, this`cursor
      ensures calls == old(calls) + [Next(statement)]
      ensures r.Ok? ==> failed == old(failed) && r.value == (old(cursor) < |rows|)
      ensures r.Err? ==> FailedLast(old(failed)) && r.error == CallError(|old(calls)|) && cursor == old(cursor)
      ensures r == Ok(true) ==> cursor == old(cursor) + 1
      ensures r == Ok(false) ==> cursor == old(cursor)
    {
      var issued := Issue(Next(statement));
      if issued.Err? {
        r := Err(issued.error);
      } else if cursor < |rows| {
        cursor := cursor + 1;
        r := Ok(true);
      } else {
        r := Ok(false);
      }
    }

    /** `NextWhile` then `Reset`, stopping at the first failure. */
    method StepAndReset(statement: Statement) returns (r: Result<(), Error>)
      modifies this`calls, this`failed
      ensures r.Ok? ==> calls == old(calls) + [NextWhile(statement), Reset(statement)] && failed == old(failed)
      ensures r.Err? ==> calls == old(calls) + [NextWhile(statement)] || calls == old(calls) + [NextWhile(statement), Reset(statement)]
      ensures r.Err? ==> FailedLast(old(failed)) && r.error == CallError(|calls| - 1)
    {
      r := Issue(NextWhile(statement));
      if r.Ok? {
        r := Issue(Reset(statement));
      }
    }
  }
}
