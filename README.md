# TourBooking migration and tour validation, modelled in Dafny

This project models the three parts of the TourBooking repository that have
behaviour of their own:

- **The migration manager** of the persistence layer
  (`MigrationManager.ApplyLatestMigration` and `ExecuteMigrationScript`).
  It checks that a scripts directory exists and holds at least one
  top-level `*.sql` file. It takes the file that
  `OrderByDescending(file => file.Name).First()` selects and refuses it if
  its content is blank. Otherwise it sends that content verbatim, as a single
  `Text` command, over a connection that it opens only when it is closed.
- **The migration service's run-once job** (`Migrator.ExecuteAsync`). It runs
  the same guards on the hard-coded `MigrationScripts` directory. At each step
  it emits log lines, sets the activity's error status, records the exception
  and, when the script runs without an exception, asks the host to stop. The host starts the API only after this
  job completes. The job's exact traces on success and on failure are
  therefore what the model specifies.
- **The `Tour` aggregate's constructor**. It validates the lengths of the name
  and the description, checking the name first, and then stores its
  arguments unchanged.

Modules, one file each:

| file | module | what it holds |
|---|---|---|
| `wrappers.dfy` | `Wrappers` | `Option`, `Result`, `Outcome` |
| `ordinal.dfy` | `Ordinal` | UTF-16 code units of well-formed strings, .NET `String.Length` and ordinal order on them, with its strict-total-order lemmas |
| `scripts.dfy` | `Scripts` | file entries, the file system value, the `*.sql` filter, `char.IsWhiteSpace` and `string.IsNullOrWhiteSpace`, `Trim` |
| `selection.dfy` | `Selection` | the "latest file" selection and a reference stable descending sort |
| `database.dfy` | `Database` | the connection and command classes; the connection logs the commands it sends |
| `persistence.dfy` | `Persistence` | the manager's guard sequence and the `MigrationManager` class |
| `migrator.dfy` | `MigrationService` | the event trace, the specification of a run (`MigratorRun`), the `Migrator` class |
| `domain.dfy` | `Domain` | the `Tour` value and its validating constructor `NewTour` |

Inputs that the code gets from outside are parameters of the model.

- The file system is a value: a map from each existing directory path to the
  files at its top level, in listing order. Each file carries its name, its
  full name and the text `File.ReadAllText` would return.
- The database's answer to `ExecuteNonQuery` is a parameter `serverReply`.
- Whether an activity listener is present, which decides whether `activity?`
  is null, is a parameter `activityStarted`.
- The time-based `Guid` of a new tour is a parameter `id`.

Everything the migrator does that can be seen from outside is a trace of
`Event`s in one `Telemetry` object: log lines, activity status, recorded
exception and stop request. The database commands go to the ghost log
`Connection.sent`. `MigratorRun` is a function that gives the whole trace,
the commands and the outcome of a run. `Migrator.ExecuteAsync` is proved to
produce exactly these. The trace lemmas are proved about `MigratorRun`,
and through `GuardedRun` about every answer of the guards.

Behaviour of the code worth noting:

- the migrator asks the host to stop only when the script runs without an
  exception; a failed run throws past the stop request;
- the migrator's scripts directory is the hard-coded relative path
  `MigrationScripts`;
- names are compared with the default (culture-sensitive) comparer; the
  model fixes ordinal order, see "Left out";
- a canceled token surfaces as an exception of the awaited call; there is
  no separate cancelled outcome.

## Model

| member | source | states |
|---|---|---|
| Ordinal.Utf16 | src/TourBooking.Tours.Domain/Tour.cs:20 | a character is one non-surrogate code unit or a high-low surrogate pair that decodes back to it |
| Ordinal.CodeUnits | src/TourBooking.Tours.Domain/Tour.cs:20 | a string has between one and two UTF-16 code units per character |
| Ordinal.Length | src/TourBooking.Tours.Domain/Tour.cs:20 | `String.Length` counts UTF-16 code units: between one and two per character |
| Ordinal.NameLess | src/TourBooking.Tours.Persistence/MigrationManager.cs:47 | ordinal order: the first differing code unit decides, and a proper prefix sorts first; the lemmas below prove it a strict total order |
| Ordinal.BmpLength | src/TourBooking.Tours.Domain/Tour.cs:20 | `Length` of a string of Basic Multilingual Plane characters is its character count |
| Ordinal.LessIrreflexive | src/TourBooking.Tours.Persistence/MigrationManager.cs:47 | no code-unit sequence sorts before itself |
| Ordinal.LessTransitive | src/TourBooking.Tours.Persistence/MigrationManager.cs:47 | lexicographic order on code units is transitive |
| Ordinal.LessTotal | src/TourBooking.Tours.Persistence/MigrationManager.cs:47 | two code-unit sequences are equal or one sorts before the other |
| Ordinal.LessAsymmetric | src/TourBooking.Tours.Persistence/MigrationManager.cs:47 | if a sorts before b then b does not sort before a |
| Ordinal.Utf16PrefixFree | src/TourBooking.Tours.Persistence/MigrationManager.cs:47 | UTF-16 is prefix-free: equal encodings have equal first characters and equal rests |
| Ordinal.CodeUnitsInjective | src/TourBooking.Tours.Persistence/MigrationManager.cs:47 | distinct strings have distinct code units, so ordinal equality is string equality |
| Ordinal.NameLessIrreflexive | src/TourBooking.Tours.Persistence/MigrationManager.cs:47 | no name sorts before itself |
| Ordinal.NameLessTransitive | src/TourBooking.Tours.Persistence/MigrationManager.cs:47 | ordinal order on names is transitive |
| Ordinal.NameLessTotal | src/TourBooking.Tours.Persistence/MigrationManager.cs:47 | two names are equal or one sorts before the other |
| Ordinal.NameLessAsymmetric | src/TourBooking.Tours.Persistence/MigrationManager.cs:47 | ordinal order on names is asymmetric |
| Ordinal.NameLessNotLess | src/TourBooking.Tours.Persistence/MigrationManager.cs:47 | x before y and z not after y gives x before z |
| Ordinal.NotNameLessTransitive | src/TourBooking.Tours.Persistence/MigrationManager.cs:47 | "does not sort before" is transitive |
| Scripts.IsSqlFileName | src/TourBooking.Tours.Persistence/MigrationManager.cs:41 | the `*.sql` pattern: the name ends in `.sql`, with any (possibly empty) stem |
| Scripts.SqlFilesAppend | src/TourBooking.Tours.Persistence/MigrationManager.cs:41 | filtering a listing filters its parts in turn, so the `*.sql` listing keeps the directory's order and repeats |
| Scripts.SqlFilesSingleton | src/TourBooking.Tours.Persistence/MigrationManager.cs:41 | a single file is kept exactly when its name matches `*.sql` |
| Scripts.IsWhiteSpace | src/TourBooking.Tours.Persistence/MigrationManager.cs:49 | `char.IsWhiteSpace`: the Unicode separators, U+0009 to U+000D, U+0085 and U+00A0 |
| Scripts.IsNullOrWhiteSpace | src/TourBooking.Tours.Persistence/MigrationManager.cs:49 | a string that was read is blank when every character is white space, the empty string included |
| Scripts.SqlFiles | src/TourBooking.Tours.Persistence/MigrationManager.cs:41 | the `*.sql` listing holds exactly the listed files whose name ends in `.sql`, and no more of them than the listing |
| Scripts.TrimStart | src/TourBooking.Tours.Persistence/MigrationManager.cs:49 | the result is a suffix of the input; every dropped character is white space, and the result starts with a non-white-space character or is empty |
| Scripts.TrimEnd | src/TourBooking.Tours.Persistence/MigrationManager.cs:49 | the result is a prefix of the input; every dropped character is white space, and the result ends with a non-white-space character or is empty |
| Scripts.TrimStartEmptyIffBlank | src/TourBooking.Tours.Persistence/MigrationManager.cs:49 | trimming the start leaves nothing exactly when every character is white space |
| Scripts.BlankIffTrimmedEmpty | src/TourBooking.Tours.Persistence/MigrationManager.cs:49 | `IsNullOrWhiteSpace` holds exactly when `Trim` gives the empty string |
| Scripts.TrimEndKeepsFirst | src/TourBooking.Tours.Persistence/MigrationManager.cs:49 | a string that starts with a non-white-space character does not trim to empty |
| Selection.LatestExtend | src/TourBooking.Tours.Persistence/MigrationManager.cs:47 | the latest of a listing is its head unless the latest of its tail sorts after the head |
| Selection.SelectLatest | src/TourBooking.Tours.Persistence/MigrationManager.cs:47 | the selected file has no file sorting after it, and every file listed before it sorts strictly before it (first among equal names) |
| Selection.LatestUnique | src/TourBooking.Tours.Persistence/MigrationManager.cs:47 | at most one index is the latest, so the selection is determined |
| Selection.OrderByNameDescending | src/TourBooking.Tours.Persistence/MigrationManager.cs:47 | the reference `OrderByDescending(file => file.Name)`: a stable insertion sort, greatest name first |
| Selection.InsertDescending | src/TourBooking.Tours.Persistence/MigrationManager.cs:47 | an insertion step adds exactly one copy of the file and loses none |
| Selection.InsertDescendingSorted | src/TourBooking.Tours.Persistence/MigrationManager.cs:47 | an insertion step keeps a descending listing descending |
| Selection.OrderByNameDescendingSorted | src/TourBooking.Tours.Persistence/MigrationManager.cs:47 | the reference sort orders by name, descending |
| Selection.OrderByNameDescendingPermutes | src/TourBooking.Tours.Persistence/MigrationManager.cs:47 | the reference sort is a permutation of its input |
| Selection.FirstOfOrderByNameDescending | src/TourBooking.Tours.Persistence/MigrationManager.cs:47 | `First()` of the stable descending sort is the file `SelectLatest` picks |
| Database.Connection.Open | src/TourBooking.Tours.Persistence/MigrationManager.cs:14 | opening makes the connection open, counts the open and sends nothing |
| Database.DbCommand.constructor | src/TourBooking.Tours.Persistence/MigrationManager.cs:18 | a new command is bound to its connection, with empty text and type `Text` |
| Database.DbCommand.ExecuteNonQuery | src/TourBooking.Tours.Persistence/MigrationManager.cs:24 | one command is sent with the current text and type; the driver's answer is returned. The connection stays open and is not reopened |
| Persistence.LatestMigration | src/TourBooking.Tours.Persistence/MigrationManager.cs:36-52 | the guards in order: a missing directory exactly gives `DirectoryMissing`, an existing one without a `*.sql` file exactly gives `NoScripts`; an accepted or a blank-rejected script is a top-level `*.sql` file of the directory whose content is, respectively, not blank or blank |
| Persistence.ManagerMessage | src/TourBooking.Tours.Persistence/MigrationManager.cs:38-51 | every exception message ends with the offending directory path, or with the full name of the blank script |
| Persistence.MissingDirectoryFails | src/TourBooking.Tours.Persistence/MigrationManager.cs:36-39 | a missing directory stops the guards with `DirectoryMissing` |
| Persistence.NoSqlFileFails | src/TourBooking.Tours.Persistence/MigrationManager.cs:41-45 | a directory without a `*.sql` file stops the guards with `NoScripts` |
| Persistence.AppliedScriptIsLatest | src/TourBooking.Tours.Persistence/MigrationManager.cs:41-52 | a script that passes the guards is a top-level `*.sql` file of the directory. No candidate sorts after it, it is the first among equal names, and its trimmed content is not empty |
| Persistence.LatestMigrationIsOrderByDescendingFirst | src/TourBooking.Tours.Persistence/MigrationManager.cs:36-52 | the guards pass exactly when the directory exists, holds a `*.sql` file, and the trimmed content of the first file of the descending sort is non-empty; that first file is the one accepted or rejected |
| Persistence.MigrationManager.constructor | src/TourBooking.Tours.Persistence/MigrationManager.cs:7 | the primary constructor only captures its dependency, the database context's connection |
| Persistence.MigrationManager.ExecuteMigrationScript | src/TourBooking.Tours.Persistence/MigrationManager.cs:9-25 | opens the connection only when it is closed, leaves it open, and sends exactly one `Text` command whose text is the script. The driver's error is returned unchanged |
| Persistence.MigrationManager.ApplyLatestMigration | src/TourBooking.Tours.Persistence/MigrationManager.cs:34-56 | a failed guard throws its exact message and leaves the connection untouched. Otherwise the connection is opened once if it was closed and not otherwise, exactly the chosen file's content is sent, and the call returns the file's name or the driver's error |
| MigrationService.Telemetry.Record | src/TourBooking.MigrationService/Migrator.cs:25 | an event is appended at the end of the trace |
| MigrationService.ErrorStatus | src/TourBooking.MigrationService/Migrator.cs:34 | `activity?.SetStatus(Error)`: the error status is set exactly when there is an activity, and nothing else is emitted |
| MigrationService.ExceptionStatus | src/TourBooking.MigrationService/Migrator.cs:68-69 | `activity?.AddException` then `SetStatus(Error)`: both events, in that order, exactly when there is an activity |
| MigrationService.MigratorRun | src/TourBooking.MigrationService/Migrator.cs:21-77 | the specification of one run: the guards of `LatestMigration` on `MigrationScripts` and the database's reply decide the trace, the commands and the outcome |
| MigrationService.GuardedRun | src/TourBooking.MigrationService/Migrator.cs:25-77 | the run for each answer of the guards: missing directory, no script, blank script, or a script the database accepts or rejects, each with its event trace |
| MigrationService.RunStartsWithMigratorStarted | src/TourBooking.MigrationService/Migrator.cs:25 | every trace starts with "Migrator started", which never recurs, and has at least one further event |
| MigrationService.MissingDirectoryRun | src/TourBooking.MigrationService/Migrator.cs:30-37 | missing `MigrationScripts`: error status, `DirectoryDoesNotExist`, then the throw. Nothing is executed and neither the stopping log nor the stop request follows |
| MigrationService.NoSqlFileRun | src/TourBooking.MigrationService/Migrator.cs:39-45 | no `*.sql` file: error status, `NoScriptFound` for the directory, then the throw. Nothing is executed and no stop request follows |
| MigrationService.ApplyingLatestLogged | src/TourBooking.MigrationService/Migrator.cs:47-53 | the second event names the first file of the descending sort, before its content is examined |
| MigrationService.BlankScriptRun | src/TourBooking.MigrationService/Migrator.cs:53-59 | blank content: "Applying", error status, `NoScriptFound` for the file's full name, then the throw. The database is never touched |
| MigrationService.EmptyScriptRun | src/TourBooking.MigrationService/Migrator.cs:51-59 | the run once the guards have rejected a blank script |
| MigrationService.SuccessfulRun | src/TourBooking.MigrationService/Migrator.cs:61-77 | accepted script: the trace is started, applying, applied, stopping, stop request, and the one command is the script |
| MigrationService.FailedExecutionRun | src/TourBooking.MigrationService/Migrator.cs:61-77 | rejected script: exception recorded and error status when there is an activity, then the stopping log. The same error is rethrown and no stop request is made |
| MigrationService.MigratorAgreesWithManager | src/TourBooking.MigrationService/Migrator.cs:30-63 | at most one command per run; it is exactly the one `ApplyLatestMigration("MigrationScripts")` sends, and the run succeeds exactly when that call would |
| MigrationService.StopOnlyOnSuccess | src/TourBooking.MigrationService/Migrator.cs:61-77 | the stop request occurs exactly on success, as the last event. The stopping log occurs exactly when a script was sent, and every failure with an activity sets the error status |
| MigrationService.Migrator.constructor | src/TourBooking.MigrationService/Migrator.cs:9-14 | the primary constructor only captures its dependencies: the telemetry sink (logger, activity, host lifetime) and the resolved migration manager |
| MigrationService.Migrator.ExecuteAsync | src/TourBooking.MigrationService/Migrator.cs:21-78 | appends exactly the trace of `MigratorRun` and sends exactly its commands. It returns or throws as that run says. It opens the connection exactly once when it was closed and a command is sent, and never otherwise |
| MigrationService.Migrator.ReportGuardFailure | src/TourBooking.MigrationService/Migrator.cs:32-37 | a failed guard sets the error status, when there is an activity, before the warning is logged |
| MigrationService.Migrator.ApplyScript | src/TourBooking.MigrationService/Migrator.cs:61-77 | the `try`/`catch`/`finally` around the manager call sends the script once, opening the connection once if it was closed. It appends the success or the failure events in order, and only success reaches the stop request |
| Domain.NewTour | src/TourBooking.Tours.Domain/Tour.cs:18-36 | construction succeeds exactly when the name is non-null with length 3..100 and the description is non-null with length 10..500. On success the fields are the arguments; on failure the error is the name's exact error when the name is invalid, else the description's |
| Domain.Repeat | tests/TourBooking.Tests.Domain/TourTests.cs:28 | `new string('a', n)` has `n` characters and length `n` |
| Domain.NameCheckedFirst | src/TourBooking.Tours.Domain/Tour.cs:20-23 | an invalid name gives the name error whatever the description |
| Domain.NameLengthBoundaries | tests/TourBooking.Tests.Domain/TourTests.cs:16-43 | names of length 0, 1, 2, 101 and 102 are rejected with the name error; 3, 4, 99 and 100 are accepted |
| Domain.PriceAndDatesUnchecked | src/TourBooking.Tours.Domain/Tour.cs:30-35 | with a valid name and description every price and pair of dates is accepted and stored unchanged |
| Domain.CanCreateTour | tests/TourBooking.Tests.Domain/TourTests.cs:10 | the test's tour, spanning `DateOnly.MinValue` to `MaxValue`, is created |
| Domain.TestStringLengths | tests/TourBooking.Tests.Domain/TourTests.cs:10 | the test's name and description have lengths 9 and 19 |

## Left out

- Name order: `OrderByDescending(file => file.Name)` without a comparer uses the current culture's comparer. The model fixes ordinal comparison of UTF-16 code units, so culture-specific collation, such as ignorable characters and case weighting, is not captured.
- Scripts.IsSqlFileName: the `*.sql` pattern is matched case-sensitively on the whole name. The Windows file system's case-insensitive matching and its short-name (8.3) matching are not modelled.
- Directory listing order, the relative or absolute form of `FullName`, and the file text are inputs (`FileSystem`), not computed from a real file system.
- I/O failures mid-read, such as an unreadable file, an encoding error or a directory removed between the checks, are not modelled.
- Database.Connection.Open: opening never fails in the model. A failing `OpenAsync` would surface as the same driver exception as a failing command.
- What the SQL script does to the database is not modelled; only the command text and type are recorded.
- `async`/`await`, `ConfigureAwait` and `CancellationToken` are left out. A cancellation would be one more exception from the awaited file read or database call.
- `ActivitySource` details: the activity's name and kind and its disposal are left out; the activity's status and recorded exception are the `ErrorStatusSet` and `ExceptionRecorded` events; listener sampling is the `activityStarted` parameter.
- Ordinal.CodeUnits: Dafny strings hold Unicode scalar values, so only well-formed UTF-16 is represented. A .NET string with an unpaired surrogate, such as a name or description passed to the `Tour` constructor or a file name, cannot be expressed, so `Length` (Tour.cs:20) and the name order (MigrationManager.cs:47) are modelled for well-formed strings only.
- `IServiceProvider.CreateScope` and the scope's disposal, `Dispose` of the migrator, and the hosting framework's handling of an exception that escapes `ExecuteAsync` are left out.
- The order between telemetry events and database commands is not captured: they are two separate logs.
- Domain.NewTour: `Guid.CreateVersion7(TimeProvider.System.GetUtcNow())` is clock-dependent, so the identifier is the parameter `id`. `decimal` is modelled as `real`, without its 28-digit precision.
- Everything else in the repository is not part of this model: the hosting wiring, HTTP endpoints, EF Core stores, API clients and test scaffolding.
