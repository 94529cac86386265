/**
 * The migration manager of the persistence layer: it runs one SQL script
 * over the database context's connection, and applies the latest script
 * of a directory.
 */
module Persistence {
  import opened Wrappers
  import opened Ordinal
  import opened Scripts
  import opened Selection
  import opened Database

  /** Why no script can be applied from a directory. */
  datatype MigrationError =
    | DirectoryMissing(path: string)
    | NoScripts(path: string)
    | EmptyScript(script: FileEntry)

  /** An exception that leaves the manager or the migrator. */
  datatype Fault =
    | InvalidOperation(message: string)
    | Driver(error: DbError)

  /** The guard sequence of `ApplyLatestMigration` up to the database call:
      the directory must exist, must hold a top-level `*.sql` file, and the
      latest such file must not be blank. */
  function LatestMigration(fs: FileSystem, scriptsPath: string): (r: Result<FileEntry, MigrationError>)
    ensures r == Failure(DirectoryMissing(scriptsPath)) <==> scriptsPath !in fs
    ensures r == Failure(NoScripts(scriptsPath)) <==> scriptsPath in fs && SqlFiles(fs[scriptsPath]) == []
    ensures r.Success? ==>
      scriptsPath in fs && r.value in fs[scriptsPath] && IsSqlFileName(r.value.name) && !IsNullOrWhiteSpace(r.value.content)
    ensures r.Failure? && r.error.EmptyScript? ==>
      scriptsPath in fs && r.error.script in fs[scriptsPath] && IsSqlFileName(r.error.script.name)
      && IsNullOrWhiteSpace(r.error.script.content)
  {
    if scriptsPath !in fs then Failure(DirectoryMissing(scriptsPath))
    else
      var files := SqlFiles(fs[scriptsPath]);
      if files == [] then Failure(NoScripts(scriptsPath))
      else
        var last := files[SelectLatest(files)];
        if IsNullOrWhiteSpace(last.content) then Failure(EmptyScript(last)) else Success(last)
  }

  /** The messages of the `InvalidOperationException`s the manager throws. */
  function ManagerMessage(e: MigrationError): (r: string)
    ensures var subject := if e.EmptyScript? then e.script.fullName else e.path;
      |subject| < |r| && r[|r| - |subject|..] == subject
  {
    match e
    case DirectoryMissing(path) => "Migration scripts directory does not exist: " + path
    case NoScripts(path) => "No migration script found in the specified directory: " + path
    case EmptyScript(script) => "Migration script is empty: " + script.fullName
  }

  /** A missing directory fails before anything is listed or read. */
  lemma MissingDirectoryFails(fs: FileSystem, scriptsPath: string)
    requires scriptsPath !in fs
    ensures LatestMigration(fs, scriptsPath) == Failure(DirectoryMissing(scriptsPath))
  {
  }

  /** A directory without a top-level `*.sql` file fails. */
  lemma NoSqlFileFails(fs: FileSystem, scriptsPath: string)
    requires scriptsPath in fs
    requires forall f :: f in fs[scriptsPath] ==> !IsSqlFileName(f.name)
    ensures LatestMigration(fs, scriptsPath) == Failure(NoScripts(scriptsPath))
  {
  }

  /** The applied script is a top-level `*.sql` file of the directory, no
      other such file sorts after it, no file listed before it has an equal
      name, and its content is not blank. */
  lemma AppliedScriptIsLatest(fs: FileSystem, scriptsPath: string)
    requires LatestMigration(fs, scriptsPath).Success?
    ensures scriptsPath in fs
    ensures var f := LatestMigration(fs, scriptsPath).value;
      && f in fs[scriptsPath] && IsSqlFileName(f.name)
      && Trim(f.content) != []
      && (forall g :: g in fs[scriptsPath] && IsSqlFileName(g.name) ==> !NameLess(f.name, g.name))
      && (exists i :: IsLatest(SqlFiles(fs[scriptsPath]), i) && SqlFiles(fs[scriptsPath])[i] == f)
  {
    var files := SqlFiles(fs[scriptsPath]);
    var i := SelectLatest(files);
    var f := files[i];
    BlankIffTrimmedEmpty(f.content);
    forall g | g in fs[scriptsPath] && IsSqlFileName(g.name)
      ensures !NameLess(f.name, g.name)
    {
      assert g in files;
      var j :| 0 <= j < |files| && files[j] == g;
    }
  }

  /** The guards in terms of the reference sort: the script considered is the
      first of the stable descending sort by name, and the whole guard
      sequence passes exactly when the directory exists, holds a `*.sql` file
      and that first file's trimmed content is not empty. */
  lemma LatestMigrationIsOrderByDescendingFirst(fs: FileSystem, scriptsPath: string)
    ensures LatestMigration(fs, scriptsPath).Success? <==>
      && scriptsPath in fs
      && SqlFiles(fs[scriptsPath]) != []
      && Trim(OrderByNameDescending(SqlFiles(fs[scriptsPath]))[0].content) != []
    ensures scriptsPath in fs && SqlFiles(fs[scriptsPath]) != [] ==>
      var first := OrderByNameDescending(SqlFiles(fs[scriptsPath]))[0];
      LatestMigration(fs, scriptsPath) == if Trim(first.content) == [] then Failure(EmptyScript(first)) else Success(first)
  {
    if scriptsPath in fs && SqlFiles(fs[scriptsPath]) != [] {
      var files := SqlFiles(fs[scriptsPath]);
      FirstOfOrderByNameDescending(files);
      BlankIffTrimmedEmpty(files[SelectLatest(files)].content);
    }
  }

  /** `MigrationManager`, over the connection of its database context. */
  class MigrationManager {
    const connection: Connection

    constructor (connection: Connection)
      ensures this.connection == connection
    {
      this.connection := connection;
    }

    /** Opens the connection only when it is closed, never closes it, and
        sends the script verbatim as one `Text` command; the driver's error,
        if any, is returned unchanged. */
    method ExecuteMigrationScript(sqlScript: string, serverReply: Outcome<DbError>) returns (r: Outcome<DbError>)
      modifies connection
      ensures connection.isOpen
      ensures connection.openCount == old(connection.openCount) + (if old(connection.isOpen) then 0 else 1)
      ensures connection.sent == old(connection.sent) + [Command(sqlScript, Text)]
      ensures r == serverReply
    {
      if !connection.isOpen {
        connection.Open();
      }
      var cmd := new DbCommand(connection);
      cmd.commandText := sqlScript;
      cmd.commandType := Text;
      r := cmd.ExecuteNonQuery(serverReply);
    }

    /** Applies the latest script of `scriptsPath` and returns its name. A
        failed guard throws before the database is touched; otherwise exactly
        one command, the chosen file's content, is sent. */
    method ApplyLatestMigration(fs: FileSystem, scriptsPath: string, serverReply: Outcome<DbError>)
      returns (r: Result<string, Fault>)
      modifies connection
      ensures LatestMigration(fs, scriptsPath).Failure? ==>
        && r == Failure(InvalidOperation(ManagerMessage(LatestMigration(fs, scriptsPath).error)))
        && connection.sent == old(connection.sent)
        && connection.isOpen == old(connection.isOpen)
        && connection.openCount == old(connection.openCount)
      ensures LatestMigration(fs, scriptsPath).Success? ==>
        var script := LatestMigration(fs, scriptsPath).value;
        && connection.sent == old(connection.sent) + [Command(script.content, Text)]
        && connection.isOpen
        && connection.openCount == old(connection.openCount) + (if old(connection.isOpen) then 0 else 1)
        && r == (if serverReply.Pass? then Success(script.name) else Failure(Driver(serverReply.error)))
    {
      if scriptsPath !in fs {
        return Failure(InvalidOperation("Migration scripts directory does not exist: " + scriptsPath));
      }
      var files := SqlFiles(fs[scriptsPath]);
      if |files| == 0 {
        return Failure(InvalidOperation("No migration script found in the specified directory: " + scriptsPath));
      }
      var lastMigration := files[SelectLatest(files)];
      var migrationScript := lastMigration.content;
      if IsNullOrWhiteSpace(migrationScript) {
        return Failure(InvalidOperation("Migration script is empty: " + lastMigration.fullName));
      }
      var outcome := ExecuteMigrationScript(migrationScript, serverReply);
      if outcome.Fail? {
        return Failure(Driver(outcome.error));
      }
      r := Success(lastMigration.name);
    }
  }
}
