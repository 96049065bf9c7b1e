/**
 * The schema lifecycle of the `users` table: creation of the full
 * version-2 schema, the additive migration from version 1, and the
 * drop-and-recreate fallback when a migration statement fails. Whether
 * a statement succeeds is decided only by whether the table, the column
 * or the index it names already exists; the engine's other refusals are
 * not part of this model.
 */
module Schema {
  import opened Wrappers

  /** The schema version the code expects. */
  const DatabaseVersion: nat := 2

  const TableUsers: string := "users"
  const ColumnId: string := "_id"
  const ColumnEmail: string := "email"
  const ColumnPassword: string := "password_hash"
  const ColumnCreatedAt: string := "created_at"
  const ColumnLastLogin: string := "last_login"
  const EmailIndex: string := "idx_email"

  datatype SqlType = Integer | Text | DateTime

  datatype Column = Column(
    name: string,
    sqlType: SqlType,
    primaryKeyAutoIncrement: bool,
    unique: bool,
    notNull: bool,
    defaultsToNow: bool)

  const IdColumn: Column := Column(ColumnId, Integer, true, false, false, false)
  const EmailColumn: Column := Column(ColumnEmail, Text, false, true, true, false)
  const PasswordColumn: Column := Column(ColumnPassword, Text, false, false, true, false)
  const CreatedAtColumn: Column := Column(ColumnCreatedAt, DateTime, false, false, false, true)
  const LastLoginColumn: Column := Column(ColumnLastLogin, DateTime, false, false, false, false)

  /** The columns of `CREATE TABLE users (...)`, in declaration order. */
  const UsersColumns: seq<Column> := [IdColumn, EmailColumn, PasswordColumn, CreatedAtColumn, LastLoginColumn]
  /**
   * An assumed version-1 layout: every current column the migration does
   * not add, already under its current name. No version-1 schema appears
   * in the code, and the migration renames nothing (`UpgradeKeepsColumnNames`).
   */
  const V1Columns: seq<Column> := [IdColumn, EmailColumn, PasswordColumn]

  /** The `users` table: its columns, whether `idx_email` exists, how many rows it holds. */
  datatype Table = Table(columns: seq<Column>, hasEmailIndex: bool, rows: nat)

  /** The database as far as this schema goes: the `users` table exists or not. */
  datatype UsersTable = Absent | Present(table: Table)

  /** The statements the helper issues. */
  datatype Statement =
    | CreateUsersTable
    | CreateEmailIndex
    | AddColumn(column: Column)
    | DropUsersTableIfExists

  /** The statements of the version 1 to 2 migration, in order. */
  const MigrationV2: seq<Statement> := [AddColumn(CreatedAtColumn), AddColumn(LastLoginColumn), CreateEmailIndex]

  predicate HasColumn(t: Table, name: string)
  {
    exists k :: 0 <= k < |t.columns| && t.columns[k].name == name
  }

  /** One statement's effect; `None` where the engine raises an error. */
  function Exec(u: UsersTable, s: Statement): Option<UsersTable>
  {
    match s
    case CreateUsersTable =>
      if u.Absent? then Some(Present(Table(UsersColumns, false, 0))) else None
    case CreateEmailIndex =>
      if u.Present? && !u.table.hasEmailIndex && HasColumn(u.table, ColumnEmail)
      then Some(Present(u.table.(hasEmailIndex := true)))
      else None
    case AddColumn(c) =>
      if u.Present? && !HasColumn(u.table, c.name)
      then Some(Present(u.table.(columns := u.table.columns + [c])))
      else None
    case DropUsersTableIfExists =>
      Some(Absent)
  }

  /** Statements run in order until one fails; `None` if any does. */
  function RunAll(u: UsersTable, stmts: seq<Statement>): Option<UsersTable>
    decreases |stmts|
  {
    if stmts == [] then Some(u)
    else
      match Exec(u, stmts[0])
      case None => None
      case Some(u') => RunAll(u', stmts[1..])
  }

  /**
   * `onCreate`: create the table and its index in one transaction. A
   * failure is logged, not raised, and the transaction rolls back.
   */
  function Created(u: UsersTable): UsersTable
  {
    match RunAll(u, [CreateUsersTable, CreateEmailIndex])
    case Some(u') => u'
    case None => u
  }

  /**
   * `onUpgrade`: below version 2 run the migration; if a statement fails,
   * drop the table and create it afresh.
   */
  function Upgraded(u: UsersTable, oldVersion: int): UsersTable
  {
    if oldVersion >= DatabaseVersion then u
    else
      match RunAll(u, MigrationV2)
      case Some(u') => u'
      case None => Created(Absent)
  }

  /** `RunAll` on a list of two statements, unfolded. */
  lemma RunTwo(u: UsersTable, a: Statement, b: Statement)
    ensures RunAll(u, [a, b]) == if Exec(u, a).None? then None else Exec(Exec(u, a).value, b)
  {
    assert [a, b][1..] == [b];
    assert [b][1..] == [];
    if Exec(u, a).Some? {
      var v := Exec(u, a).value;
      if Exec(v, b).Some? {
        assert RunAll(Exec(v, b).value, []) == Some(Exec(v, b).value);
      }
    }
  }

  /** `RunAll` on the migration, unfolded. */
  lemma RunMigration(u: UsersTable)
    ensures RunAll(u, MigrationV2) ==
      if Exec(u, MigrationV2[0]).None? then None
      else RunAll(Exec(u, MigrationV2[0]).value, [MigrationV2[1], MigrationV2[2]])
  {
    assert MigrationV2[1..] == [MigrationV2[1], MigrationV2[2]];
  }

  /** The full schema after creation: five columns, the email index, no rows. */
  const FreshTable: Table := Table(UsersColumns, true, 0)

  function ColumnNames(cs: seq<Column>): seq<string>
  {
    seq(|cs|, k requires 0 <= k < |cs| => cs[k].name)
  }

  // ---------------------------------------------------------------------
  // Properties of the lifecycle
  // ---------------------------------------------------------------------

  /** The fresh schema: the five named columns, an autoincrement key, a unique non-null email, the index. */
  lemma FreshSchema()
    ensures ColumnNames(FreshTable.columns) == [ColumnId, ColumnEmail, ColumnPassword, ColumnCreatedAt, ColumnLastLogin]
    ensures FreshTable.columns[0].primaryKeyAutoIncrement && FreshTable.columns[0].sqlType == Integer
    ensures FreshTable.columns[1].unique && FreshTable.columns[1].notNull
    ensures FreshTable.columns[3].defaultsToNow
    ensures FreshTable.hasEmailIndex && FreshTable.rows == 0
  {
  }

  /** Creation on an empty database yields the fresh schema; on an existing table it changes nothing. */
  lemma CreatedAllOrNothing(u: UsersTable)
    ensures u.Absent? ==> Created(u) == Present(FreshTable)
    ensures u.Present? ==> Created(u) == u
  {
    if u.Absent? {
      assert HasColumn(Table(UsersColumns, false, 0), ColumnEmail) by {
        assert UsersColumns[1].name == ColumnEmail;
      }
    }
  }

  /** From version 2 on, an upgrade leaves the table as it is. */
  lemma UpgradeAtTargetIsNoop(u: UsersTable, oldVersion: int)
    requires oldVersion >= DatabaseVersion
    ensures Upgraded(u, oldVersion) == u
  {
  }

  /** A version-1 table gains `created_at`, `last_login` and the index, and keeps its rows. */
  lemma UpgradeFromV1(rows: nat, oldVersion: int)
    requires oldVersion < DatabaseVersion
    ensures Upgraded(Present(Table(V1Columns, false, rows)), oldVersion) == Present(Table(UsersColumns, true, rows))
  {
    var t0 := Table(V1Columns, false, rows);
    var t1 := t0.(columns := V1Columns + [CreatedAtColumn]);
    var t2 := t1.(columns := t1.columns + [LastLoginColumn]);
    assert !HasColumn(t0, ColumnCreatedAt);
    assert !HasColumn(t1, ColumnLastLogin);
    assert t2.columns[1].name == ColumnEmail;
    assert t2.columns == UsersColumns;
    RunMigration(Present(t0));
    RunTwo(Present(t1), MigrationV2[1], MigrationV2[2]);
  }

  /** Appending a column adds exactly that column's name. */
  lemma HasColumnAppended(t: Table, c: Column, name: string)
    ensures HasColumn(t.(columns := t.columns + [c]), name) <==> HasColumn(t, name) || c.name == name
  {
    var cs := t.columns + [c];
    if HasColumn(t, name) {
      var k :| 0 <= k < |t.columns| && t.columns[k].name == name;
      assert cs[k].name == name;
    }
    if c.name == name {
      assert cs[|t.columns|].name == name;
    }
  }

  /**
   * The conditions under which a migration statement fails: no table, a
   * column the migration would add already there, the email index already
   * there, or no email column to index.
   */
  predicate MigrationBlocked(u: UsersTable)
  {
    || u.Absent?
    || HasColumn(u.table, ColumnCreatedAt)
    || HasColumn(u.table, ColumnLastLogin)
    || u.table.hasEmailIndex
    || !HasColumn(u.table, ColumnEmail)
  }

  /** The migration fails exactly on a blocked table, and otherwise appends the two columns and the index. */
  lemma MigrationFailsIff(u: UsersTable)
    ensures RunAll(u, MigrationV2).None? <==> MigrationBlocked(u)
    ensures !MigrationBlocked(u) ==>
      RunAll(u, MigrationV2) ==
        Some(Present(u.table.(columns := u.table.columns + [CreatedAtColumn, LastLoginColumn], hasEmailIndex := true)))
  {
    RunMigration(u);
    if u.Present? && !HasColumn(u.table, ColumnCreatedAt) {
      var t := u.table;
      var t1 := t.(columns := t.columns + [CreatedAtColumn]);
      var t2 := t1.(columns := t1.columns + [LastLoginColumn]);
      HasColumnAppended(t, CreatedAtColumn, ColumnLastLogin);
      HasColumnAppended(t1, LastLoginColumn, ColumnEmail);
      HasColumnAppended(t, CreatedAtColumn, ColumnEmail);
      RunTwo(Present(t1), MigrationV2[1], MigrationV2[2]);
      assert t.columns + [CreatedAtColumn] + [LastLoginColumn] == t.columns + [CreatedAtColumn, LastLoginColumn];
    }
  }

  /** Whenever the migration is blocked, the fallback loses every row and leaves the fresh schema. */
  lemma UpgradeFallbackLosesRows(u: UsersTable, oldVersion: int)
    requires oldVersion < DatabaseVersion
    requires MigrationBlocked(u)
    ensures Upgraded(u, oldVersion) == Present(FreshTable)
  {
    MigrationFailsIff(u);
    CreatedAllOrNothing(Absent);
  }

  /** Whenever the migration is not blocked, it keeps the rows and appends the two columns and the index. */
  lemma UpgradeMigrates(t: Table, oldVersion: int)
    requires oldVersion < DatabaseVersion
    requires !MigrationBlocked(Present(t))
    ensures Upgraded(Present(t), oldVersion) ==
      Present(Table(t.columns + [CreatedAtColumn, LastLoginColumn], true, t.rows))
  {
    MigrationFailsIff(Present(t));
  }

  /**
   * A migration that applies renames no column: the upgraded table has
   * exactly the old column names plus `created_at` and `last_login`.
   */
  lemma UpgradeKeepsColumnNames(t: Table, oldVersion: int, name: string)
    requires oldVersion < DatabaseVersion
    requires !MigrationBlocked(Present(t))
    ensures Upgraded(Present(t), oldVersion).Present?
    ensures HasColumn(Upgraded(Present(t), oldVersion).table, name) <==>
              HasColumn(t, name) || name == ColumnCreatedAt || name == ColumnLastLogin
  {
    UpgradeMigrates(t, oldVersion);
    var t1 := t.(columns := t.columns + [CreatedAtColumn]);
    HasColumnAppended(t, CreatedAtColumn, name);
    HasColumnAppended(t1, LastLoginColumn, name);
    assert t1.columns + [LastLoginColumn] == t.columns + [CreatedAtColumn, LastLoginColumn];
    assert Upgraded(Present(t), oldVersion).table.columns == t1.(columns := t1.columns + [LastLoginColumn]).columns;
  }

  /**
   * Below version 2 an upgrade always ends with the email index in place:
   * either the migration applied, keeping the rows and appending the two
   * columns, or the fallback left the fresh, empty schema.
   */
  lemma UpgradeOutcome(u: UsersTable, oldVersion: int)
    requires oldVersion < DatabaseVersion
    ensures Upgraded(u, oldVersion).Present?
    ensures Upgraded(u, oldVersion).table.hasEmailIndex
    ensures || Upgraded(u, oldVersion) == Present(FreshTable)
            || (&& u.Present?
                && Upgraded(u, oldVersion).table.rows == u.table.rows
                && Upgraded(u, oldVersion).table.columns == u.table.columns + [CreatedAtColumn, LastLoginColumn])
  {
    CreatedAllOrNothing(Absent);
    RunMigration(u);
    match RunAll(u, MigrationV2)
    case None =>
    case Some(u') =>
      var t := u.table;
      var u1 := Exec(u, MigrationV2[0]).value;
      RunTwo(u1, MigrationV2[1], MigrationV2[2]);
      assert u' == Present(t.(columns := t.columns + [CreatedAtColumn] + [LastLoginColumn], hasEmailIndex := true));
      assert t.columns + [CreatedAtColumn] + [LastLoginColumn] == t.columns + [CreatedAtColumn, LastLoginColumn];
  }

  // ---------------------------------------------------------------------
  // The database handle the helper works on
  // ---------------------------------------------------------------------

  class Database {
    /** The schema version recorded in the database file (0 when new). */
    var version: nat
    var users: UsersTable

    constructor ()
      ensures version == 0 && users == Absent
    {
      version := 0;
      users := Absent;
    }

    /** `execSQL`: `ok` is false where the engine throws, and then nothing changes. */
    method ExecSQL(s: Statement) returns (ok: bool)
      modifies this`users
      ensures ok <==> Exec(old(users), s).Some?
      ensures users == if ok then Exec(old(users), s).value else old(users)
    {
      match Exec(users, s)
      case Some(u) =>
        users := u;
        ok := true;
      case None =>
        ok := false;
    }

    method OnCreate()
      modifies this`users
      ensures users == Created(old(users))
    {
      var before := users;
      var ok := ExecSQL(CreateUsersTable);
      if ok {
        ok := ExecSQL(CreateEmailIndex);
      }
      if !ok {
        // the transaction was never marked successful: it rolls back
        users := before;
      }
    }

    method OnUpgrade(oldVersion: int, newVersion: int)
      modifies this`users
      ensures users == Upgraded(old(users), oldVersion)
    {
      var start := users;
      var ok := true;
      if oldVersion < 2 {
        ok := ExecSQL(AddColumn(CreatedAtColumn));
        if ok {
          ok := ExecSQL(AddColumn(LastLoginColumn));
        }
        if ok {
          ok := ExecSQL(CreateEmailIndex);
        }
        RunMigration(start);
        if Exec(start, MigrationV2[0]).Some? {
          RunTwo(Exec(start, MigrationV2[0]).value, MigrationV2[1], MigrationV2[2]);
        }
      }
      if !ok {
        var _ := ExecSQL(DropUsersTableIfExists);
        OnCreate();
      }
    }

    /**
     * Opening the database: a new file gets `onCreate`, an older version
     * `onUpgrade`, and the recorded version then becomes 2. A newer
     * version cannot be downgraded and the open fails.
     */
    method Open() returns (ok: bool)
      modifies this
      ensures ok <==> old(version) <= DatabaseVersion
      ensures ok ==> version == DatabaseVersion
      ensures ok && old(version) == 0 ==> users == Created(old(users))
      ensures ok && 0 < old(version) ==> users == Upgraded(old(users), old(version))
      ensures !ok ==> version == old(version) && users == old(users)
    {
      if version > DatabaseVersion {
        return false;
      }
      if version == 0 {
        OnCreate();
      } else if version < DatabaseVersion {
        OnUpgrade(version, DatabaseVersion);
      }
      version := DatabaseVersion;
      ok := true;
    }
  }

  /** A new database file is opened with the full schema at version 2. */
  method OpenNewDatabase() returns (version: nat, users: UsersTable)
    ensures version == DatabaseVersion
    ensures users == Present(FreshTable)
  {
    var db := new Database();
    var ok := db.Open();
    CreatedAllOrNothing(Absent);
    version, users := db.version, db.users;
  }
}
