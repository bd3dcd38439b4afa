/**
 * The migration reconciler. The migrations are sorted by version; the
 * records of `_migrations` are read back; the migrations whose index is
 * below the number of records must match them (version and checksum) and
 * are skipped, the rest are run in order, each followed by an insert of its
 * record. Everything runs in one transaction, committed when every step
 * succeeded and rolled back otherwise.
 */
module Migrations {
  import opened Wrappers
  import opened Database

  datatype Migration = Migration(version: int, description: string, sql: string, exec: bool)

  datatype AppliedMigration = AppliedMigration(version: int, checksum: string)

  /** The SQL text of the statements `Migrate` prepares itself. */
  function SqlText(statement: Statement): string
    requires statement.CreateMigrationsTable? || statement.SelectMigrations? || statement.InsertMigration? || statement.MigrationSql?
  {
    match statement
    case CreateMigrationsTable =>
      "create table if not exists _migrations ("
      + "version integer primary key,"
      + "description text not null,"
      + "installed_on timestamp not null default current_timestamp,"
      + "checksum text not null"
      + ");"
    case SelectMigrations => "select version, checksum from _migrations order by version;"
    case InsertMigration => "insert into _migrations (version, description, checksum)" + "values ($1, $2, $3);"
    case MigrationSql(sql) => sql
    case _ => assert false; ""
  }

  const MissingError: Error := Error(kDatabaseError, Text("missing version or checksum"))
  const MismatchError: Error := Error(kDatabaseError, Text("applied migrations do not match current migrations"))

  // Sorting by version

  predicate SortedByVersion(ms: seq<Migration>) {
    forall i, j :: 0 <= i < j < |ms| ==> ms[i].version <= ms[j].version
  }

  /** Inserts `m` before the first migration with a version at least its own. */
  function InsertByVersion(sorted: seq<Migration>, m: Migration): (r: seq<Migration>)
    ensures multiset(r) == multiset(sorted) + multiset{m}
  {
    if sorted == [] || m.version <= sorted[0].version then
      [m] + sorted
    else
      assert sorted == [sorted[0]] + sorted[1..];
      [sorted[0]] + InsertByVersion(sorted[1..], m)
  }

  lemma {:induction false} InsertAtLeast(sorted: seq<Migration>, m: Migration, least: int)
    requires forall k :: 0 <= k < |sorted| ==> least <= sorted[k].version
    requires least <= m.version
    ensures forall k :: 0 <= k < |InsertByVersion(sorted, m)| ==> least <= InsertByVersion(sorted, m)[k].version
  {
    if !(sorted == [] || m.version <= sorted[0].version) {
      InsertAtLeast(sorted[1..], m, least);
    }
  }

  lemma {:induction false} InsertSorted(sorted: seq<Migration>, m: Migration)
    requires SortedByVersion(sorted)
    ensures SortedByVersion(InsertByVersion(sorted, m))
  {
    if !(sorted == [] || m.version <= sorted[0].version) {
      InsertSorted(sorted[1..], m);
      InsertAtLeast(sorted[1..], m, sorted[0].version);
    }
  }

  /** The order `std::ranges::sort` leaves the migrations in: ascending versions, same elements. */
  function SortByVersion(ms: seq<Migration>): (r: seq<Migration>)
    ensures SortedByVersion(r)
    ensures multiset(r) == multiset(ms)
  {
    if ms == [] then []
    else
      assert ms == ms[..|ms| - 1] + [ms[|ms| - 1]];
      var sorted := SortByVersion(ms[..|ms| - 1]);
      InsertSorted(sorted, ms[|ms| - 1]);
      InsertByVersion(sorted, ms[|ms| - 1])
  }

  // Checksums

  /** A `std::string` built from a C string: the characters before the first NUL. */
  function UpToNul(s: string): string {
    if s == [] || s[0] == 0 as char then [] else [s[0]] + UpToNul(s[1..])
  }

  /** The checksum is the longest NUL-free prefix of the digest. */
  lemma {:induction false} UpToNulPrefix(s: string)
    ensures |UpToNul(s)| <= |s| && UpToNul(s) == s[..|UpToNul(s)|]
    ensures forall i :: 0 <= i < |UpToNul(s)| ==> UpToNul(s)[i] != 0 as char
    ensures |UpToNul(s)| < |s| ==> s[|UpToNul(s)|] == 0 as char
  {
    if s != [] && s[0] != 0 as char {
      UpToNulPrefix(s[1..]);
    }
  }

  /** `Checksum`: the SHA-512 digest of the SQL text, cut at its first zero byte. */
  function Checksum(digest: string -> string, m: Migration): string {
    UpToNul(digest(m.sql))
  }

  // Reading back `_migrations`

  predicate Present(row: StoredRow) {
    row.version.Some? && row.checksum.Some?
  }

  /** `AsBool`: the integer column read as a `bool`, then stored as an integer again. */
  function AsBool(value: int): int {
    if value != 0 then 1 else 0
  }

  function ReadRow(row: StoredRow): AppliedMigration
    requires Present(row)
  {
    AppliedMigration(AsBool(row.version.value), row.checksum.value)
  }

  /** The records `GetAppliedMigrations` returns when no call on the connection fails. */
  function ReadBack(rows: seq<StoredRow>): Result<seq<AppliedMigration>, Error> {
    if forall i :: 0 <= i < |rows| ==> Present(rows[i]) then
      Ok(seq(|rows|, i requires 0 <= i < |rows| && Present(rows[i]) => ReadRow(rows[i])))
    else
      Err(MissingError)
  }

  /** Every record read back carries version 0 or 1, whatever was stored. */
  lemma ReadBackVersions(rows: seq<StoredRow>)
    ensures ReadBack(rows).Ok? <==> forall i :: 0 <= i < |rows| ==> Present(rows[i])
    ensures ReadBack(rows).Err? ==> ReadBack(rows).error == MissingError
    ensures ReadBack(rows).Ok? ==> |ReadBack(rows).value| == |rows|
    ensures ReadBack(rows).Ok? ==>
      forall i :: 0 <= i < |rows| ==>
        ReadBack(rows).value[i].version in {0, 1}
        && (ReadBack(rows).value[i].version == 0 <==> rows[i].version.value == 0)
        && ReadBack(rows).value[i].checksum == rows[i].checksum.value
        && ReadBack(rows).value[i] == ReadRow(rows[i])
  {
  }

  // Reconciling

  predicate Matches(digest: string -> string, m: Migration, applied: AppliedMigration) {
    applied.version == m.version && applied.checksum == Checksum(digest, m)
  }

  lemma SliceGrows<T>(s: seq<T>, lo: nat, i: nat)
    requires lo <= i < |s|
    ensures s[lo..i + 1] == s[lo..i] + [s[i]]
  {
  }

  function Min(a: nat, b: nat): nat {
    if a <= b then a else b
  }

  /**
   * What the loop of `ApplyMigrations` decides: a mismatch at an index below
   * both lengths is an error; otherwise the migrations past the applied
   * records are the ones to run, in order.
   */
  /** Each migration with an applied record at its index matches that record. */
  predicate PrefixMatches(digest: string -> string, ms: seq<Migration>, applied: seq<AppliedMigration>) {
    forall i :: 0 <= i < |ms| && i < |applied| ==> Matches(digest, ms[i], applied[i])
  }

  function Pending(digest: string -> string, ms: seq<Migration>, applied: seq<AppliedMigration>): Result<seq<Migration>, Error> {
    if PrefixMatches(digest, ms, applied) then
      Ok(ms[Min(|ms|, |applied|)..])
    else
      Err(MismatchError)
  }

  /** Records beyond the length of the migration list are never looked at. */
  lemma PendingIgnoresExtraRecords(digest: string -> string, ms: seq<Migration>, applied: seq<AppliedMigration>, extra: seq<AppliedMigration>)
    requires |applied| >= |ms|
    ensures Pending(digest, ms, applied + extra) == Pending(digest, ms, applied)
    ensures Pending(digest, ms, applied).Ok? ==> Pending(digest, ms, applied).value == []
  {
    assert forall i :: 0 <= i < |ms| ==> (applied + extra)[i] == applied[i];
  }

  /** A mismatch at any index below the record count blocks every migration. */
  lemma MismatchBlocks(digest: string -> string, ms: seq<Migration>, applied: seq<AppliedMigration>, i: nat)
    requires i < |ms| && i < |applied|
    requires !Matches(digest, ms[i], applied[i])
    ensures Pending(digest, ms, applied) == Err(MismatchError)
  {
  }

  /** The rows `ApplyMigrations` inserts for `ms`, read back verbatim. */
  function Inserted(digest: string -> string, ms: seq<Migration>): (rows: seq<StoredRow>)
    ensures |rows| == |ms|
    ensures forall i :: 0 <= i < |ms| ==> rows[i] == StoredRow(Some(ms[i].version), Some(Checksum(digest, ms[i])))
  {
    seq(|ms|, i requires 0 <= i < |ms| => StoredRow(Some(ms[i].version), Some(Checksum(digest, ms[i]))))
  }

  /**
   * Running the same list again after it was applied finds nothing to do
   * exactly when every version is 0 or 1: the `AsBool` read-back turns any
   * other version into 1, which then mismatches.
   */
  lemma {:induction false} RerunNeedsBooleanVersions(digest: string -> string, ms: seq<Migration>)
    ensures ReadBack(Inserted(digest, ms)).Ok?
    ensures Pending(digest, ms, ReadBack(Inserted(digest, ms)).value).Ok?
      <==> forall i :: 0 <= i < |ms| ==> ms[i].version in {0, 1}
    ensures Pending(digest, ms, ReadBack(Inserted(digest, ms)).value).Ok? ==>
      Pending(digest, ms, ReadBack(Inserted(digest, ms)).value).value == []
  {
    var rows := Inserted(digest, ms);
    ReadBackVersions(rows);
    var applied := ReadBack(rows).value;
    if forall i :: 0 <= i < |ms| ==> ms[i].version in {0, 1} {
      forall i | 0 <= i < |ms|
        ensures Matches(digest, ms[i], applied[i])
      {
        assert applied[i] == ReadRow(rows[i]);
      }
    } else {
      var i :| 0 <= i < |ms| && ms[i].version !in {0, 1};
      assert applied[i] == ReadRow(rows[i]);
      MismatchBlocks(digest, ms, applied, i);
    }
  }

  /** Records written with the exact versions and checksums make a re-run a no-op. */
  lemma ExactRecordsRerun(digest: string -> string, ms: seq<Migration>, applied: seq<AppliedMigration>)
    requires |applied| == |ms|
    requires forall i :: 0 <= i < |ms| ==> applied[i] == AppliedMigration(ms[i].version, Checksum(digest, ms[i]))
    ensures Pending(digest, ms, applied) == Ok([])
  {
    assert forall i :: 0 <= i < |ms| ==> Matches(digest, ms[i], applied[i]);
    assert ms[Min(|ms|, |applied|)..] == [];
  }

  // Call traces

  const CreateTableCalls: seq<Call> :=
    [ BuildQuery(Statement.CreateMigrationsTable), NextWhile(Statement.CreateMigrationsTable)
    , Reset(Statement.CreateMigrationsTable) ]

  function Nexts(n: nat): (r: seq<Call>)
    ensures |r| == n && forall k :: 0 <= k < n ==> r[k] == Next(SelectMigrations)
  {
    if n == 0 then [] else Nexts(n - 1) + [Next(SelectMigrations)]
  }

  /** The select, one `Next` per row plus the final one, and the reset. */
  function ReadCalls(rowCount: nat): seq<Call> {
    [BuildQuery(SelectMigrations)] + Nexts(rowCount + 1) + [Reset(SelectMigrations)]
  }

  function SqlCalls(m: Migration): seq<Call> {
    var statement := MigrationSql(m.sql);
    [BuildQuery(statement)] + (if m.exec then [Exec(statement)] else [NextWhile(statement), Reset(statement)])
  }

  function RecordCalls(m: Migration, checksum: string): seq<Call> {
    [ BuildQuery(InsertMigration), BindInt(InsertMigration, 0, m.version), BindChars(InsertMigration, 1, m.description)
    , BindChars(InsertMigration, 2, checksum), NextWhile(InsertMigration), Reset(InsertMigration) ]
  }

  function MigrationCalls(m: Migration, checksum: string): seq<Call> {
    SqlCalls(m) + RecordCalls(m, checksum)
  }

  function ApplyCalls(digest: string -> string, ms: seq<Migration>): seq<Call> {
    if ms == [] then []
    else ApplyCalls(digest, ms[..|ms| - 1]) + MigrationCalls(ms[|ms| - 1], Checksum(digest, ms[|ms| - 1]))
  }

  lemma AppendApplied(digest: string -> string, done: seq<Migration>, m: Migration)
    ensures ApplyCalls(digest, done + [m]) == ApplyCalls(digest, done) + MigrationCalls(m, Checksum(digest, m))
  {
    assert (done + [m])[..|done|] == done;
  }

  /** `after` is `before` followed by more calls, none of them a `Commit`. */
  predicate Extends(after: seq<Call>, before: seq<Call>) {
    |before| <= |after| && after[..|before|] == before && Commit !in after[|before|..]
  }

  lemma ExtendsTransitive(c: seq<Call>, b: seq<Call>, a: seq<Call>)
    requires Extends(c, b) && Extends(b, a)
    ensures Extends(c, a)
  {
    assert c[..|a|] == b[..|a|];
    assert c[|a|..] == b[|a|..] + c[|b|..];
  }

  lemma ExtendsDropLast(after: seq<Call>, before: seq<Call>)
    requires Extends(after, before) && |before| < |after|
    ensures Extends(after[..|after| - 1], before)
  {
    assert after[..|after| - 1][|before|..] == after[|before|..|after| - 1];
    assert forall k :: |before| <= k < |after| - 1 ==> after[k] in after[|before|..];
  }

  /** In a trace that extends `before` up to its last call, only that last call can be a `Commit`. */
  lemma CommitOnlyLast(after: seq<Call>, before: seq<Call>)
    requires |before| < |after| && Extends(after[..|after| - 1], before)
    ensures forall k :: |before| <= k < |after| - 1 ==> after[k] != Commit
  {
    forall k | |before| <= k < |after| - 1
      ensures after[k] != Commit
    {
      assert after[k] == after[..|after| - 1][|before|..][k - |before|];
    }
  }

  lemma ExtendsApplied(before: seq<Call>, digest: string -> string, ms: seq<Migration>)
    ensures Extends(before + ApplyCalls(digest, ms), before)
  {
    NoCommitApplied(digest, ms);
    ExtendsByAppending(before, ApplyCalls(digest, ms));
  }

  lemma NoCommitApplied(digest: string -> string, ms: seq<Migration>)
    ensures Commit !in ApplyCalls(digest, ms)
  {
    if ms != [] {
      NoCommitApplied(digest, ms[..|ms| - 1]);
    }
  }

  lemma ExtendsByAppending(before: seq<Call>, added: seq<Call>)
    requires Commit !in added
    ensures Extends(before + added, before)
  {
    assert (before + added)[|before|..] == added;
  }

  class Migrate {
    const connection: Connection
    var migrations: seq<Migration>
    /** The SHA-512 digest, as the characters of its bytes. */
    const digest: string -> string

    constructor(connection: Connection, migrations: seq<Migration>, digest: string -> string)
      ensures this.connection == connection && this.digest == digest
      ensures this.migrations == SortByVersion(migrations)
      ensures SortedByVersion(this.migrations) && multiset(this.migrations) == multiset(migrations)
    {
      this.connection := connection;
      this.digest := digest;
      this.migrations := SortByVersion(migrations);
    }

    method CreateMigrationsTable() returns (r: Result<(), Error>)
      modifies connection`calls, connection`failed, connection`cursor
      ensures Extends(connection.calls, old(connection.calls))
      ensures r.Ok? ==> connection.calls == old(connection.calls) + CreateTableCalls && connection.failed == old(connection.failed)
      ensures r.Err? ==> connection.FailedLast(old(connection.failed)) && r.error == CallError(|connection.calls| - 1)
    {
      connection.Build(Statement.CreateMigrationsTable);
      r := connection.StepAndReset(Statement.CreateMigrationsTable);
    }

    /**
     * Reads every record of `_migrations`, stopping with an error at the
     * first row whose version or checksum cannot be read.
     */
    method GetAppliedMigrations() returns (r: Result<seq<AppliedMigration>, Error>)
      modifies connection`calls, connection`failed, connection`cursor
      ensures Extends(connection.calls, old(connection.calls))
      ensures r.Ok? ==> r == ReadBack(connection.rows)
      ensures r.Ok? ==> connection.calls == old(connection.calls) + ReadCalls(|connection.rows|) && connection.failed == old(connection.failed)
      ensures r.Err? ==>
        (connection.FailedLast(old(connection.failed)) && r.error == CallError(|connection.calls| - 1))
        || (r == ReadBack(connection.rows) && connection.failed == old(connection.failed))
      ensures connection.failing == {} ==> r == ReadBack(connection.rows)
    {
      connection.Build(SelectMigrations);
      var migrations, next := ReadRows();
      if next.Err? {
        return Err(next.error);
      }
      if next.value {
        ReadBackVersions(connection.rows);
        return Err(MissingError);
      }
      var reset := connection.Issue(Reset(SelectMigrations));
      if reset.Err? {
        return Err(reset.error);
      }
      ReadBackVersions(connection.rows);
      assert forall j :: 0 <= j < |migrations| ==> migrations[j] == ReadBack(connection.rows).value[j];
      assert migrations == ReadBack(connection.rows).value;
      r := Ok(migrations);
    }

    /**
     * The loop of `GetAppliedMigrations`: steps over the rows while `Next`
     * reports one, reading each. It stops with `Ok(true)` at a row missing
     * its version or checksum, with `Ok(false)` after the last row, or with
     * the error of a failing `Next`.
     */
    method ReadRows() returns (migrations: seq<AppliedMigration>, next: Result<bool, Error>)
      requires connection.cursor == 0
      modifies connection`calls, connection`failed, connection`cursor
      ensures connection.calls == old(connection.calls) + Nexts(|migrations| + 1)
      ensures next.Ok? ==> connection.failed == old(connection.failed)
      ensures next.Err? ==> connection.FailedLast(old(connection.failed)) && next.error == CallError(|connection.calls| - 1)
      ensures next.Ok? && next.value ==> |migrations| < |connection.rows| && !Present(connection.rows[|migrations|])
      ensures next.Ok? && !next.value ==> |migrations| == |connection.rows|
      ensures |migrations| <= |connection.rows|
      ensures forall j :: 0 <= j < |migrations| ==> Present(connection.rows[j]) && migrations[j] == ReadRow(connection.rows[j])
    {
      migrations := [];
      next := connection.NextRow(SelectMigrations);
      while next.Ok? && next.value
        invariant connection.calls == old(connection.calls) + Nexts(|migrations| + 1)
        invariant next.Ok? ==> connection.failed == old(connection.failed)
        invariant next.Err? ==> connection.FailedLast(old(connection.failed)) && next.error == CallError(|connection.calls| - 1)
        invariant next.Ok? && next.value ==> connection.cursor == |migrations| + 1 <= |connection.rows|
        invariant next.Ok? && !next.value ==> |migrations| == |connection.rows|
        invariant |migrations| <= |connection.rows|
        invariant forall j :: 0 <= j < |migrations| ==> Present(connection.rows[j]) && migrations[j] == ReadRow(connection.rows[j])
        decreases |connection.rows| - |migrations|
      {
        var row := connection.rows[connection.cursor - 1];
        var version := row.version.Map(AsBool);
        var checksum := row.checksum;
        if version.None? || checksum.None? {
          return;
        }
        migrations := migrations + [AppliedMigration(version.value, checksum.value)];
        next := connection.NextRow(SelectMigrations);
      }
    }

    method ApplyMigrationSql(migration: Migration) returns (r: Result<(), Error>)
      modifies connection`calls, connection`failed, connection`cursor
      ensures Extends(connection.calls, old(connection.calls))
      ensures r.Ok? ==> connection.calls == old(connection.calls) + SqlCalls(migration) && connection.failed == old(connection.failed)
      ensures r.Err? ==> connection.FailedLast(old(connection.failed)) && r.error == CallError(|connection.calls| - 1)
    {
      var statement := MigrationSql(migration.sql);
      connection.Build(statement);
      if migration.exec {
        r := connection.Issue(Exec(statement));
        return;
      }
      r := connection.StepAndReset(statement);
    }

    /** The insert of the migration's record; the bind results are not looked at. */
    method InsertRecord(migration: Migration, checksum: string) returns (r: Result<(), Error>)
      modifies connection`calls, connection`failed, connection`cursor
      ensures Extends(connection.calls, old(connection.calls))
      ensures r.Ok? ==> connection.calls == old(connection.calls) + RecordCalls(migration, checksum) && connection.failed == old(connection.failed)
      ensures r.Err? ==> connection.FailedLast(old(connection.failed)) && r.error == CallError(|connection.calls| - 1)
    {
      connection.Build(InsertMigration);
      connection.Bind(BindInt(InsertMigration, 0, migration.version));
      connection.Bind(BindChars(InsertMigration, 1, migration.description));
      connection.Bind(BindChars(InsertMigration, 2, checksum));
      r := connection.StepAndReset(InsertMigration);
    }

    /** Runs the migration's SQL, then records it. */
    method ApplyMigration(migration: Migration, checksum: string) returns (r: Result<(), Error>)
      modifies connection`calls, connection`failed, connection`cursor
      ensures Extends(connection.calls, old(connection.calls))
      ensures r.Ok? ==> connection.calls == old(connection.calls) + MigrationCalls(migration, checksum) && connection.failed == old(connection.failed)
      ensures r.Err? ==> connection.FailedLast(old(connection.failed)) && r.error == CallError(|connection.calls| - 1)
    {
      r := ApplyMigrationSql(migration);
      if r.Err? {
        return;
      }
      r := InsertRecord(migration, checksum);
    }

    /** The loop over the sorted migrations: match the applied prefix, run the rest. */
    method ApplyPending(applied: seq<AppliedMigration>) returns (r: Result<(), Error>)
      modifies connection`calls, connection`failed, connection`cursor
      ensures Extends(connection.calls, old(connection.calls))
      ensures !PrefixMatches(digest, migrations, applied) <==> r == Err(MismatchError)
      ensures r == Err(MismatchError) ==> connection.calls == old(connection.calls) && connection.failed == old(connection.failed)
      ensures r.Ok? ==>
        PrefixMatches(digest, migrations, applied)
        && connection.calls == old(connection.calls) + ApplyCalls(digest, migrations[Min(|migrations|, |applied|)..])
        && connection.failed == old(connection.failed)
      ensures r.Err? && r != Err(MismatchError) ==>
        PrefixMatches(digest, migrations, applied)
        && connection.FailedLast(old(connection.failed)) && r.error == CallError(|connection.calls| - 1)
    {
      var ms := migrations;
      ghost var done: seq<Migration> := [];
      for i := 0 to |ms|
        invariant forall j :: 0 <= j < i && j < |applied| ==> Matches(digest, ms[j], applied[j])
        invariant done == ms[Min(i, |applied|)..i]
        invariant connection.calls == old(connection.calls) + ApplyCalls(digest, done)
        invariant connection.failed == old(connection.failed)
      {
        var migration := ms[i];
        var checksum := Checksum(digest, migration);
        if i < |applied| {
          if applied[i].version != migration.version || applied[i].checksum != checksum {
            ExtendsByAppending(old(connection.calls), []);
            return Err(MismatchError);
          }
        } else {
          var result := ApplyNext(migration, checksum, old(connection.calls), done);
          if result.Err? {
            return result;
          }
          SliceGrows(ms, |applied|, i);
          done := done + [migration];
        }
      }
      assert ms[Min(|ms|, |applied|)..|ms|] == ms[Min(|ms|, |applied|)..];
      ExtendsApplied(old(connection.calls), digest, done);
      r := Ok(());
    }

    /** One iteration of the loop of `ApplyPending` past the applied records, seen from its start. */
    method ApplyNext(migration: Migration, checksum: string, ghost start: seq<Call>, ghost done: seq<Migration>)
      returns (r: Result<(), Error>)
      requires checksum == Checksum(digest, migration)
      requires connection.calls == start + ApplyCalls(digest, done)
      modifies connection`calls, connection`failed, connection`cursor
      ensures r.Ok? ==> connection.calls == start + ApplyCalls(digest, done + [migration]) && connection.failed == old(connection.failed)
      ensures r.Err? ==>
        Extends(connection.calls, start)
        && connection.FailedLast(old(connection.failed)) && r.error == CallError(|connection.calls| - 1)
    {
      r := ApplyMigration(migration, checksum);
      if r.Err? {
        ExtendsApplied(start, digest, done);
        ExtendsTransitive(connection.calls, start + ApplyCalls(digest, done), start);
      } else {
        AppendApplied(digest, done, migration);
      }
    }

    /** The `and_then` chain from `Transaction` to `Commit`. */
    method Run() returns (r: Result<(), Error>)
      modifies connection`calls, connection`failed, connection`cursor
      ensures |old(connection.calls)| < |connection.calls|
      ensures Extends(connection.calls[..|connection.calls| - 1], old(connection.calls))
      ensures connection.calls[|connection.calls| - 1] == Commit ==>
        connection.failed == old(connection.failed) || connection.FailedLast(old(connection.failed))
      ensures r.Ok? ==>
        ReadBack(connection.rows).Ok?
        && Pending(digest, migrations, ReadBack(connection.rows).value).Ok?
        && connection.calls == old(connection.calls) + [Transaction] + CreateTableCalls + ReadCalls(|connection.rows|)
             + ApplyCalls(digest, Pending(digest, migrations, ReadBack(connection.rows).value).value) + [Commit]
        && connection.failed == old(connection.failed)
      ensures r.Err? ==>
        (connection.FailedLast(old(connection.failed)) && r.error == CallError(|connection.calls| - 1))
        || (connection.failed == old(connection.failed) && Refused(r.error))
    {
      ghost var start := connection.calls;
      var applied := BeginAndRead();
      if applied.Err? {
        ExtendsDropLast(connection.calls, start);
        return Err(applied.error);
      }
      ghost var read := connection.calls;
      r := ApplyPending(applied.value);
      ExtendsTransitive(connection.calls, read, start);
      if r.Err? {
        ExtendsDropLast(connection.calls, start);
        return;
      }
      ghost var applyEnd := connection.calls;
      r := connection.Issue(Commit);
      assert connection.calls[..|connection.calls| - 1] == applyEnd;
    }

    /** The start of the `and_then` chain: `Transaction`, the table and the applied records. */
    method BeginAndRead() returns (r: Result<seq<AppliedMigration>, Error>)
      modifies connection`calls, connection`failed, connection`cursor
      ensures |old(connection.calls)| < |connection.calls| && Extends(connection.calls, old(connection.calls))
      ensures r.Ok? ==>
        r == ReadBack(connection.rows)
        && connection.calls == old(connection.calls) + [Transaction] + CreateTableCalls + ReadCalls(|connection.rows|)
        && connection.failed == old(connection.failed)
      ensures r.Err? ==>
        (connection.FailedLast(old(connection.failed)) && r.error == CallError(|connection.calls| - 1))
        || (connection.failed == old(connection.failed) && r == ReadBack(connection.rows))
    {
      ghost var start := connection.calls;
      var begun := connection.Issue(Transaction);
      ExtendsByAppending(start, [Transaction]);
      if begun.Err? {
        return Err(begun.error);
      }
      ghost var inTransaction := connection.calls;
      var created := CreateMigrationsTable();
      ExtendsTransitive(connection.calls, inTransaction, start);
      if created.Err? {
        return Err(created.error);
      }
      ghost var afterCreate := connection.calls;
      r := GetAppliedMigrations();
      ExtendsTransitive(connection.calls, afterCreate, start);
    }

    /** The errors `ApplyMigrations` raises itself, each with its reason. */
    ghost predicate Refused(e: Error)
      reads this, connection
    {
      (e == MissingError && ReadBack(connection.rows).Err?)
      || (e == MismatchError && ReadBack(connection.rows).Ok? && Pending(digest, migrations, ReadBack(connection.rows).value).Err?)
    }

    /**
     * `ApplyMigrations`: on any error the transaction is rolled back and the
     * original error (`cause`) returned, unless the rollback itself fails.
     */
    method ApplyMigrations() returns (r: Result<(), Error>, ghost cause: Error)
      modifies connection`calls, connection`failed, connection`cursor
      ensures r.Ok? ==>
        ReadBack(connection.rows).Ok?
        && Pending(digest, migrations, ReadBack(connection.rows).value).Ok?
        && connection.calls == old(connection.calls) + [Transaction] + CreateTableCalls + ReadCalls(|connection.rows|)
             + ApplyCalls(digest, Pending(digest, migrations, ReadBack(connection.rows).value).value) + [Commit]
        && connection.failed == old(connection.failed)
      ensures connection.failing == {} ==>
        (r.Ok? <==> ReadBack(connection.rows).Ok? && Pending(digest, migrations, ReadBack(connection.rows).value).Ok?)
      ensures r.Err? ==>
        |old(connection.calls)| < |connection.calls| && connection.calls[|connection.calls| - 1] == Rollback
        && r.error == (if |connection.calls| - 1 in connection.failing then CallError(|connection.calls| - 1) else cause)
      ensures r.Err? ==> Refused(cause) || cause.message.FailedCall?
      ensures forall k :: |old(connection.calls)| <= k < |connection.calls| && connection.calls[k] == Commit ==>
        (r.Ok? && k == |connection.calls| - 1) || (r.Err? && k == |connection.calls| - 2)
    {
      var outcome := Run();
      CommitOnlyLast(connection.calls, old(connection.calls));
      cause := if outcome.Err? then outcome.error else MissingError;
      if outcome.Ok? {
        return outcome, cause;
      }
      var rolledBack := connection.Issue(Rollback);
      if rolledBack.Err? {
        return Err(rolledBack.error), cause;
      }
      r := outcome;
    }
  }
}
