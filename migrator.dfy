/**
 * The migration service: a run-once background job that applies the latest
 * script of the `MigrationScripts` directory and then asks its host to stop.
 * Everything it does that can be observed from outside (log lines, the
 * activity's status and recorded exception, the stop request) is one
 * ordered trace of events.
 */
module MigrationService {
  import opened Wrappers
  import opened Scripts
  import opened Selection
  import opened Database
  import opened Persistence

  /** The hard-coded, relative scripts directory. */
  const ScriptsPath: string := "MigrationScripts"

  const DirectoryMissingMessage: string := "Migration scripts directory does not exist."
  const NoScriptMessage: string := "No migration script found in the specified directory."
  const EmptyScriptMessage: string := "Migration script is empty."

  datatype Event =
    | MigratorStarted                   // log: "Migrator started"
    | DirectoryDoesNotExist(path: string)   // log: "The directory '{Path}' does not exist."
    | NoScriptFound(path: string)       // log: "No migration script found in '{Path}'."
    | ApplyingMigration(scriptName: string) // log: "Applying migration script '{ScriptName}'"
    | MigrationApplied(scriptName: string)  // log: "Migration script '{ScriptName}' applied successfully"
    | MigratorStopping                  // log: "Migrator is stopping"
    | ErrorStatusSet                    // activity status set to Error
    | ExceptionRecorded(error: DbError) // exception added to the activity
    | StopApplicationRequested          // IHostApplicationLifetime.StopApplication()

  /** Logger, activity and host lifetime seen as one sink of events. */
  class Telemetry {
    var events: seq<Event>

    constructor ()
      ensures events == []
    {
      events := [];
    }

    method Record(e: Event)
      modifies this
      ensures events == old(events) + [e]
    {
      events := events + [e];
    }
  }

  /** What one run does: the events it emits, the commands it sends to the
      database, and whether it returns or throws. */
  datatype Run = Run(events: seq<Event>, commands: seq<Command>, result: Outcome<Fault>)

  /** The activity's status is only set when an activity was started, that
      is, when a listener samples the migrator's activity source. */
  function ErrorStatus(activityStarted: bool): (r: seq<Event>)
    ensures ErrorStatusSet in r <==> activityStarted
    ensures forall e :: e in r ==> e == ErrorStatusSet
    ensures |r| <= 1
  {
    if activityStarted then [ErrorStatusSet] else []
  }

  /** The run of `ExecuteAsync` on a file system, with or without an activity,
      when the database answers the script with `serverReply`. The migrator
      runs the same guards, in the same order, as `ApplyLatestMigration` on
      the `MigrationScripts` directory, emitting an event at each step. */
  function MigratorRun(fs: FileSystem, activityStarted: bool, serverReply: Outcome<DbError>): Run
  {
    GuardedRun(LatestMigration(fs, ScriptsPath), activityStarted, serverReply)
  }

  /** The run once the guards have answered `latest`: the error they stopped
      at, or the script that passed them all. */
  function GuardedRun(latest: Result<FileEntry, MigrationError>, activityStarted: bool, serverReply: Outcome<DbError>): Run
  {
    match latest
    case Failure(DirectoryMissing(_)) =>
      Run([MigratorStarted] + (ErrorStatus(activityStarted) + [DirectoryDoesNotExist(ScriptsPath)]),
          [], Fail(InvalidOperation(DirectoryMissingMessage)))
    case Failure(NoScripts(_)) =>
      Run([MigratorStarted] + (ErrorStatus(activityStarted) + [NoScriptFound(ScriptsPath)]),
          [], Fail(InvalidOperation(NoScriptMessage)))
    case Failure(EmptyScript(script)) =>
      Run([MigratorStarted] + ([ApplyingMigration(script.name)] + (ErrorStatus(activityStarted) + [NoScriptFound(script.fullName)])),
          [], Fail(InvalidOperation(EmptyScriptMessage)))
    case Success(script) =>
      if serverReply.Pass? then
        Run([MigratorStarted] + ([ApplyingMigration(script.name)] + [MigrationApplied(script.name), MigratorStopping, StopApplicationRequested]),
            [Command(script.content, Text)], Pass)
      else
        Run([MigratorStarted] + ([ApplyingMigration(script.name)] + (ExceptionStatus(activityStarted, serverReply.error) + [MigratorStopping])),
            [Command(script.content, Text)], Fail(Driver(serverReply.error)))
  }

  /** A failed script execution is recorded on the activity, whose status then
      becomes Error, when there is an activity. */
  function ExceptionStatus(activityStarted: bool, error: DbError): (r: seq<Event>)
    ensures r != [] <==> activityStarted
    ensures r != [] ==> r == [ExceptionRecorded(error), ErrorStatusSet]
  {
    if activityStarted then [ExceptionRecorded(error), ErrorStatusSet] else []
  }

  /** The first event of every run is "Migrator started"; it is logged once,
      before any look at the file system. Stated for every answer of the
      guards, hence for every `MigratorRun`. */
  lemma RunStartsWithMigratorStarted(latest: Result<FileEntry, MigrationError>, activityStarted: bool, serverReply: Outcome<DbError>)
    ensures var events := GuardedRun(latest, activityStarted, serverReply).events;
      |events| >= 2 && events[0] == MigratorStarted && MigratorStarted !in events[1..]
  {
    var events := GuardedRun(latest, activityStarted, serverReply).events;
    var errs := ErrorStatus(activityStarted);
    assert MigratorStarted !in errs;
    match latest
    case Failure(DirectoryMissing(_)) =>
      StartedOnce(events, errs + [DirectoryDoesNotExist(ScriptsPath)]);
    case Failure(NoScripts(_)) =>
      StartedOnce(events, errs + [NoScriptFound(ScriptsPath)]);
    case Failure(EmptyScript(script)) =>
      StartedOnce(events, [ApplyingMigration(script.name)] + (errs + [NoScriptFound(script.fullName)]));
    case Success(script) =>
      if serverReply.Pass? {
        StartedOnce(events, [ApplyingMigration(script.name)] + [MigrationApplied(script.name), MigratorStopping, StopApplicationRequested]);
      } else {
        var exc := ExceptionStatus(activityStarted, serverReply.error);
        assert MigratorStarted !in exc;
        StartedOnce(events, [ApplyingMigration(script.name)] + (exc + [MigratorStopping]));
      }
  }

  /** A trace made of "Migrator started" and a non-empty rest without it
      names that event first and only once. */
  lemma StartedOnce(events: seq<Event>, rest: seq<Event>)
    requires events == [MigratorStarted] + rest
    requires |rest| >= 1 && MigratorStarted !in rest
    ensures |events| >= 2 && events[0] == MigratorStarted && MigratorStarted !in events[1..]
  {
    assert events[1..] == rest;
  }

  /** A missing scripts directory: error status, the directory log, then a
      throw; nothing is executed and the host is not asked to stop. */
  lemma MissingDirectoryRun(fs: FileSystem, activityStarted: bool, serverReply: Outcome<DbError>)
    requires ScriptsPath !in fs
    ensures var run := MigratorRun(fs, activityStarted, serverReply);
      && run.events == [MigratorStarted] + ErrorStatus(activityStarted) + [DirectoryDoesNotExist(ScriptsPath)]
      && run.commands == []
      && run.result == Fail(InvalidOperation(DirectoryMissingMessage))
      && MigratorStopping !in run.events && StopApplicationRequested !in run.events
  {
  }

  /** No top-level `*.sql` file: error status, `NoScriptFound` for the
      directory, then a throw; nothing is executed. */
  lemma NoSqlFileRun(fs: FileSystem, activityStarted: bool, serverReply: Outcome<DbError>)
    requires ScriptsPath in fs
    requires forall f :: f in fs[ScriptsPath] ==> !IsSqlFileName(f.name)
    ensures var run := MigratorRun(fs, activityStarted, serverReply);
      && run.events == [MigratorStarted] + ErrorStatus(activityStarted) + [NoScriptFound(ScriptsPath)]
      && run.commands == []
      && run.result == Fail(InvalidOperation(NoScriptMessage))
      && StopApplicationRequested !in run.events
  {
  }

  /** Once a `*.sql` file exists, the second event names the first file of
      the stable descending sort by name, before its content is looked at. */
  lemma ApplyingLatestLogged(fs: FileSystem, activityStarted: bool, serverReply: Outcome<DbError>)
    requires ScriptsPath in fs && SqlFiles(fs[ScriptsPath]) != []
    ensures var run := MigratorRun(fs, activityStarted, serverReply);
      |OrderByNameDescending(SqlFiles(fs[ScriptsPath]))| > 0 &&
      run.events[1] == ApplyingMigration(OrderByNameDescending(SqlFiles(fs[ScriptsPath]))[0].name)
  {
    FirstOfOrderByNameDescending(SqlFiles(fs[ScriptsPath]));
  }

  /** A latest script whose trimmed content is empty: error status,
      `NoScriptFound` for the file's full path, then a throw; the database is
      never touched. */
  lemma BlankScriptRun(fs: FileSystem, activityStarted: bool, serverReply: Outcome<DbError>)
    requires ScriptsPath in fs && SqlFiles(fs[ScriptsPath]) != []
    requires |OrderByNameDescending(SqlFiles(fs[ScriptsPath]))| > 0
    requires Trim(OrderByNameDescending(SqlFiles(fs[ScriptsPath]))[0].content) == []
    ensures var run := MigratorRun(fs, activityStarted, serverReply);
      var latest := OrderByNameDescending(SqlFiles(fs[ScriptsPath]))[0];
      && run.events == [MigratorStarted] + ([ApplyingMigration(latest.name)] + (ErrorStatus(activityStarted) + [NoScriptFound(latest.fullName)]))
      && run.commands == []
      && run.result == Fail(InvalidOperation(EmptyScriptMessage))
  {
    var files := SqlFiles(fs[ScriptsPath]);
    FirstOfOrderByNameDescending(files);
    var latest := files[SelectLatest(files)];
    BlankIffTrimmedEmpty(latest.content);
    assert IsNullOrWhiteSpace(latest.content);
    assert LatestMigration(fs, ScriptsPath) == Failure(EmptyScript(latest));
    EmptyScriptRun(fs, activityStarted, serverReply, latest);
  }

  /** The run once the manager's guards have rejected `script` as empty. */
  lemma EmptyScriptRun(fs: FileSystem, activityStarted: bool, serverReply: Outcome<DbError>, script: FileEntry)
    requires LatestMigration(fs, ScriptsPath) == Failure(EmptyScript(script))
    ensures MigratorRun(fs, activityStarted, serverReply)
      == Run([MigratorStarted] + ([ApplyingMigration(script.name)] + (ErrorStatus(activityStarted) + [NoScriptFound(script.fullName)])),
             [], Fail(InvalidOperation(EmptyScriptMessage)))
  {
  }

  /** A script the database accepts: the trace ends with the applied log,
      the stopping log and the stop request, in that order. */
  lemma SuccessfulRun(fs: FileSystem, activityStarted: bool, serverReply: Outcome<DbError>)
    requires LatestMigration(fs, ScriptsPath).Success? && serverReply.Pass?
    ensures var run := MigratorRun(fs, activityStarted, serverReply);
      var script := LatestMigration(fs, ScriptsPath).value;
      && run.events == [MigratorStarted, ApplyingMigration(script.name), MigrationApplied(script.name), MigratorStopping, StopApplicationRequested]
      && run.commands == [Command(script.content, Text)]
      && run.result == Pass
  {
  }

  /** A script the database rejects: the exception is recorded, the status
      becomes Error, the stopping log is still written, the same error is
      rethrown, and the host is not asked to stop. */
  lemma FailedExecutionRun(fs: FileSystem, activityStarted: bool, serverReply: Outcome<DbError>)
    requires LatestMigration(fs, ScriptsPath).Success? && serverReply.Fail?
    ensures var run := MigratorRun(fs, activityStarted, serverReply);
      var script := LatestMigration(fs, ScriptsPath).value;
      && run.events == [MigratorStarted, ApplyingMigration(script.name)]
                       + (if activityStarted then [ExceptionRecorded(serverReply.error), ErrorStatusSet] else [])
                       + [MigratorStopping]
      && run.commands == [Command(script.content, Text)]
      && run.result == Fail(Driver(serverReply.error))
      && StopApplicationRequested !in run.events
  {
  }

  /** The migrator and `ApplyLatestMigration("MigrationScripts")` pass the same
      guards and send the same script: at most one, the manager's choice. */
  lemma MigratorAgreesWithManager(fs: FileSystem, activityStarted: bool, serverReply: Outcome<DbError>)
    ensures var run := MigratorRun(fs, activityStarted, serverReply);
      && |run.commands| <= 1
      && run.commands == (match LatestMigration(fs, ScriptsPath)
                          case Success(script) => [Command(script.content, Text)]
                          case Failure(_) => [])
      && (run.result.Pass? <==> LatestMigration(fs, ScriptsPath).Success? && serverReply.Pass?)
  {
  }

  /** The host is asked to stop exactly when the run succeeds, as the final
      event; "Migrator is stopping" is logged exactly when a script was sent;
      every failure with an activity sets its status to Error. */
  lemma StopOnlyOnSuccess(latest: Result<FileEntry, MigrationError>, activityStarted: bool, serverReply: Outcome<DbError>)
    ensures var run := GuardedRun(latest, activityStarted, serverReply);
      && (StopApplicationRequested in run.events <==> run.result.Pass?)
      && (run.result.Pass? ==> run.events[|run.events| - 1] == StopApplicationRequested)
      && (MigratorStopping in run.events <==> run.commands != [])
      && (run.result.Fail? && activityStarted ==> ErrorStatusSet in run.events)
  {
    var run := GuardedRun(latest, activityStarted, serverReply);
    var errs := ErrorStatus(activityStarted);
    assert StopApplicationRequested !in errs && MigratorStopping !in errs;
    assert activityStarted ==> ErrorStatusSet in errs;
    match latest
    case Failure(DirectoryMissing(_)) =>
      assert run.events == [MigratorStarted] + (errs + [DirectoryDoesNotExist(ScriptsPath)]);
    case Failure(NoScripts(_)) =>
      assert run.events == [MigratorStarted] + (errs + [NoScriptFound(ScriptsPath)]);
    case Failure(EmptyScript(script)) =>
      assert run.events == [MigratorStarted] + ([ApplyingMigration(script.name)] + (errs + [NoScriptFound(script.fullName)]));
    case Success(script) =>
      if serverReply.Fail? {
        var exc := ExceptionStatus(activityStarted, serverReply.error);
        assert StopApplicationRequested !in exc;
        assert activityStarted ==> ErrorStatusSet in exc;
        assert run.events == [MigratorStarted] + ([ApplyingMigration(script.name)] + (exc + [MigratorStopping]));
      }
  }

  /** Regrouping an appended trace; the traces of `MigratorRun` are grouped
      from the right, the `Record` calls append from the left. */
  lemma Associative(a: seq<Event>, b: seq<Event>, c: seq<Event>)
    ensures a + b + c == a + (b + c)
  {
  }

  /** `Migrator`, with the services it resolves. */
  class Migrator {
    const telemetry: Telemetry
    const manager: MigrationManager

    constructor (telemetry: Telemetry, manager: MigrationManager)
      ensures this.telemetry == telemetry && this.manager == manager
    {
      this.telemetry := telemetry;
      this.manager := manager;
    }

    /** `ExecuteAsync`: emits exactly the events of `MigratorRun`, sends
        exactly its commands, and returns or throws as it says. */
    method ExecuteAsync(fs: FileSystem, activityStarted: bool, serverReply: Outcome<DbError>)
      returns (r: Outcome<Fault>)
      modifies telemetry, manager.connection
      ensures telemetry.events == old(telemetry.events) + MigratorRun(fs, activityStarted, serverReply).events
      ensures manager.connection.sent == old(manager.connection.sent) + MigratorRun(fs, activityStarted, serverReply).commands
      ensures manager.connection.isOpen == (old(manager.connection.isOpen) || MigratorRun(fs, activityStarted, serverReply).commands != [])
      ensures manager.connection.openCount == old(manager.connection.openCount)
        + (if !old(manager.connection.isOpen) && MigratorRun(fs, activityStarted, serverReply).commands != [] then 1 else 0)
      ensures r == MigratorRun(fs, activityStarted, serverReply).result
    {
      ghost var latest := LatestMigration(fs, ScriptsPath);
      ghost var before := telemetry.events;
      telemetry.Record(MigratorStarted);
      if ScriptsPath !in fs {
        ReportGuardFailure(activityStarted, DirectoryDoesNotExist(ScriptsPath));
        Associative(before, [MigratorStarted], ErrorStatus(activityStarted) + [DirectoryDoesNotExist(ScriptsPath)]);
        assert latest == Failure(DirectoryMissing(ScriptsPath));
        return Fail(InvalidOperation(DirectoryMissingMessage));
      }
      var files := SqlFiles(fs[ScriptsPath]);
      if |files| == 0 {
        ReportGuardFailure(activityStarted, NoScriptFound(ScriptsPath));
        Associative(before, [MigratorStarted], ErrorStatus(activityStarted) + [NoScriptFound(ScriptsPath)]);
        assert latest == Failure(NoScripts(ScriptsPath));
        return Fail(InvalidOperation(NoScriptMessage));
      }
      var lastMigration := files[SelectLatest(files)];
      telemetry.Record(ApplyingMigration(lastMigration.name));
      ghost var started := telemetry.events;
      var migrationScript := lastMigration.content;
      if IsNullOrWhiteSpace(migrationScript) {
        ReportGuardFailure(activityStarted, NoScriptFound(lastMigration.fullName));
        Associative(before + [MigratorStarted], [ApplyingMigration(lastMigration.name)], ErrorStatus(activityStarted) + [NoScriptFound(lastMigration.fullName)]);
        Associative(before, [MigratorStarted], [ApplyingMigration(lastMigration.name)] + (ErrorStatus(activityStarted) + [NoScriptFound(lastMigration.fullName)]));
        assert latest == Failure(EmptyScript(lastMigration));
        return Fail(InvalidOperation(EmptyScriptMessage));
      }
      assert latest == Success(lastMigration);
      r := ApplyScript(lastMigration, activityStarted, serverReply);
      Associative(before + [MigratorStarted], [ApplyingMigration(lastMigration.name)], telemetry.events[|started|..]);
      Associative(before, [MigratorStarted], [ApplyingMigration(lastMigration.name)] + telemetry.events[|started|..]);
    }

    /** A failed guard: the activity's status becomes Error, then the warning
        is logged. */
    method ReportGuardFailure(activityStarted: bool, warning: Event)
      modifies telemetry
      ensures telemetry.events == old(telemetry.events) + (ErrorStatus(activityStarted) + [warning])
    {
      if activityStarted {
        telemetry.Record(ErrorStatusSet);
      }
      telemetry.Record(warning);
    }

    /** The `try`/`catch`/`finally` around the manager call, followed by the
        stop request that only a run without an exception reaches. */
    method ApplyScript(script: FileEntry, activityStarted: bool, serverReply: Outcome<DbError>)
      returns (r: Outcome<Fault>)
      modifies telemetry, manager.connection
      ensures serverReply.Pass? ==>
        telemetry.events == old(telemetry.events) + [MigrationApplied(script.name), MigratorStopping, StopApplicationRequested]
      ensures serverReply.Fail? ==>
        telemetry.events == old(telemetry.events) + (ExceptionStatus(activityStarted, serverReply.error) + [MigratorStopping])
      ensures manager.connection.sent == old(manager.connection.sent) + [Command(script.content, Text)]
      ensures manager.connection.isOpen
      ensures manager.connection.openCount == old(manager.connection.openCount) + (if old(manager.connection.isOpen) then 0 else 1)
      ensures r == if serverReply.Pass? then Pass else Fail(Driver(serverReply.error))
    {
      var outcome := manager.ExecuteMigrationScript(script.content, serverReply);
      if outcome.Fail? {
        if activityStarted {
          telemetry.Record(ExceptionRecorded(outcome.error));
          telemetry.Record(ErrorStatusSet);
        }
        telemetry.Record(MigratorStopping);
        return Fail(Driver(outcome.error));
      }
      telemetry.Record(MigrationApplied(script.name));
      telemetry.Record(MigratorStopping);
      telemetry.Record(StopApplicationRequested);
      r := Pass;
    }
  }
}
