/** The migration command line (cmd/migrate/main.go): the command
    dispatch, the cleaning of a new migration's name, the clamped `down`
    loop and the status report.  Connecting to the database, the
    environment and the printing are left out; a fatal log is an outcome. */
module MigrateCli {
  import opened Wrappers
  import opened GoStrings
  import opened Errors
  import opened Migrations

  /** What `main` does with its flags. */
  datatype Action =
    | ShowHelp
    | ExitWithHelp(message: string)
    | CreateCommand
    | UpCommand
    | DownCommand
    | RollbackToCommand
    | StatusCommand

  const Commands: seq<string> := ["create", "up", "down", "rollback-to", "status"]

  function Dispatch(help: bool, command: string): (r: Action)
    ensures help ==> r == ShowHelp
    ensures r.ExitWithHelp? <==> !help && command !in Commands
    ensures !help && command == "" ==> r == ExitWithHelp("Error: command is required")
    ensures !help && command != "" && command !in Commands ==>
              r == ExitWithHelp("Error: unknown command '" + command + "'")
  {
    if help then ShowHelp
    else if command == "" then ExitWithHelp("Error: command is required")
    else if command == "create" then CreateCommand
    else if command == "up" then UpCommand
    else if command == "down" then DownCommand
    else if command == "rollback-to" then RollbackToCommand
    else if command == "status" then StatusCommand
    else ExitWithHelp("Error: unknown command '" + command + "'")
  }

  /** How a command ends: normally, or with exit status 1 and a message. */
  datatype Outcome = Done | Fatal(message: string)

  // ------------------------------------------------------------- create

  /** The cleaning of a migration name: trim white space, spaces to
      underscores, lower-case. */
  function CleanName(name: string): (r: string)
    ensures ' ' !in r
    ensures forall i :: 0 <= i < |r| ==> !IsUpper(r[i])
    ensures r == [] || (!IsSpace(r[0]) && !IsSpace(r[|r| - 1]))
  {
    var t := TrimSpace(name);
    UnderscoredShape(t);
    var u := ReplaceChar(t, ' ', '_');
    LoweredShape(u);
    ToLower(u)
  }

  /** Underscores for spaces: no space is left, and the ends stay free of
      white space. */
  lemma UnderscoredShape(t: string)
    requires t == [] || (!IsSpace(t[0]) && !IsSpace(t[|t| - 1]))
    ensures var u := ReplaceChar(t, ' ', '_');
            ' ' !in u && (u == [] || (!IsSpace(u[0]) && !IsSpace(u[|u| - 1])))
  {
    var u := ReplaceChar(t, ' ', '_');
    assert forall i :: 0 <= i < |u| ==> u[i] != ' ';
    if u != [] {
      assert u[0] == t[0] && u[|u| - 1] == t[|t| - 1];
    }
  }

  /** Lower-casing a string without spaces whose ends are not white space
      keeps both properties and leaves no upper-case letter. */
  lemma LoweredShape(u: string)
    requires ' ' !in u && (u == [] || (!IsSpace(u[0]) && !IsSpace(u[|u| - 1])))
    ensures var r := ToLower(u);
            ' ' !in r && (forall i :: 0 <= i < |r| ==> !IsUpper(r[i]))
            && (r == [] || (!IsSpace(r[0]) && !IsSpace(r[|r| - 1])))
  {
    var r := ToLower(u);
    LowerKeepsSpace(u);
    ToLowerNoUpper(u);
    forall i | 0 <= i < |r|
      ensures r[i] != ' '
    {
      assert u[i] != ' ';
    }
  }

  /** Cleaning a clean name changes nothing. */
  lemma CleanNameIdempotent(name: string)
    ensures CleanName(CleanName(name)) == CleanName(name)
  {
    var c := CleanName(name);
    TrimSpaceOfTrimmed(c);
    ReplaceAbsent(c, ' ', '_');
    ToLowerKeepsLower(c);
  }

  /** A name cleans to nothing exactly when it is all white space. */
  lemma CleanEmptyIffBlank(name: string)
    ensures CleanName(name) == "" <==> IsBlank(name)
  {
    TrimSpaceEmptyIffBlank(name);
  }

  /** createMigration: the name is required, must not clean to nothing, and
      names the files created in the absolute migration path.  `absPath` is
      filepath.Abs of the path, `created` CreateMigrationFile's result. */
  function CreateMigration(name: string, absPath: Result<string, Error>,
                           created: (string, string) -> Result<(string, string), Error>)
    : (r: (Outcome, Option<(string, string)>))
    ensures name == "" ==> r == (Fatal("Error: migration name is required for create command"), None)
    ensures name != "" && IsBlank(name) ==> r == (Fatal("Error: migration name cannot be empty"), None)
    ensures r.1.Some? <==> name != "" && !IsBlank(name) && absPath.Ok?
    ensures r.1.Some? ==> r.1.value == (absPath.value, CleanName(name))
    ensures r.0 == Done <==> r.1.Some? && created(r.1.value.0, r.1.value.1).Ok?
  {
    CleanEmptyIffBlank(name);
    if name == "" then (Fatal("Error: migration name is required for create command"), None)
    else
      var clean := CleanName(name);
      if clean == "" then (Fatal("Error: migration name cannot be empty"), None)
      else match absPath
        case Failure(e) => (Fatal("Error resolving migration path: " + e.Message()), None)
        case Ok(dir) =>
          match created(dir, clean)
          case Failure(e) => (Fatal("Error creating migration file: " + e.Message()), Some((dir, clean)))
          case Ok(_) => (Done, Some((dir, clean)))
  }

  // ------------------------------------------------------------------ up

  /** runMigrationsUp: RunMigrationsFromPath, whose error is fatal. */
  method RunUp(db: MigrationDb, loaded: Result<seq<MigrationEntry>, Error>, createErr: Option<Error>, faults: TxFaults)
    returns (outcome: Outcome)
    requires db.Valid()
    modifies db
    ensures db.Valid()
    ensures outcome.Fatal? ==> db.table == old(db.table) && db.schema == old(db.schema)
    ensures outcome == Done ==>
              loaded.Ok? && db.table == old(db.table) + Pending(loaded.value, Names(old(db.table)))
    ensures outcome == Done <==>
              createErr.None? && loaded.Ok?
              && (loaded.value == []
                  || (faults.begin.None? && faults.query.None? && faults.commit.None?
                      && CleanRun(old(db.table), Pending(loaded.value, Names(old(db.table))), faults.exec, faults.write)))
  {
    var err, _ := db.RunMigrations(loaded, createErr, faults);
    if err.Some? {
      return Fatal("Error running migrations:" + err.value.Message());
    }
    return Done;
  }

  // ---------------------------------------------------------------- down

  /** The number of rollbacks `down -steps=n` performs with `count`
      migrations applied: max(0, min(steps, count)). */
  function DownCount(steps: int, count: nat): (r: nat)
    ensures r <= count
    ensures steps <= 0 ==> r == 0
    ensures 0 <= steps <= count ==> r == steps
    ensures steps >= count ==> r == count
  {
    if count == 0 || steps <= 0 then 0 else if steps > count then count else steps
  }

  /** The k-th rollback of `down` (from 0) finds the applied migrations and
      rolls back the k-th newest row of `table` without a failure. */
  predicate DownStepSucceeds(table: seq<MigrationEntry>, k: nat, stepFaults: nat -> (Option<Error>, TxFaults))
    requires k < |table|
  {
    stepFaults(k).0.None? && RollbackSucceeds(table[|table| - 1 - k], stepFaults(k).1)
  }

  /** runMigrationsDown: the applied migrations are read once to clamp the
      steps, then the newest is rolled back that many times.  `stepFaults(i)`
      are the failures the i-th RollbackLastMigration meets. */
  method RunMigrationsDown(db: MigrationDb, steps: int, getErr: Option<Error>,
                           stepFaults: nat -> (Option<Error>, TxFaults))
    returns (outcome: Outcome, rolledBack: nat)
    requires db.Valid()
    modifies db
    ensures db.Valid()
    ensures getErr.Some? ==> outcome.Fatal? && rolledBack == 0 && db.table == old(db.table)
    ensures |db.table| <= |old(db.table)| && db.table == old(db.table)[..|db.table|]
    ensures rolledBack == |old(db.table)| - |db.table|
    ensures outcome == Done ==> getErr.None? && rolledBack == DownCount(steps, |old(db.table)|)
    ensures outcome == Done <==>
              getErr.None? && forall k :: 0 <= k < DownCount(steps, |old(db.table)|) ==>
                                          DownStepSucceeds(old(db.table), k, stepFaults)
  {
    var applied := db.GetAppliedMigrations(getErr);
    if applied.Failure? {
      return Fatal("Error getting applied migrations:" + applied.error.Message()), 0;
    }
    var n := |applied.value|;
    if n == 0 {
      return Done, 0;
    }
    var todo := steps;
    if todo > n {
      todo := n;
    }
    ghost var t := db.table;
    rolledBack := 0;
    var i := 0;
    while i < todo
      invariant 0 <= i <= (if todo < 0 then 0 else todo)
      invariant db.Valid()
      invariant rolledBack == i && |t| == n
      invariant |db.table| == |t| - i && db.table == t[..|db.table|]
      invariant forall k :: 0 <= k < i ==> DownStepSucceeds(t, k, stepFaults)
    {
      var (queryErr, faults) := stepFaults(i);
      assert db.table[|db.table| - 1] == t[|t| - 1 - i];
      var err := db.RollbackLastMigration(queryErr, faults);
      if err.Some? {
        assert !DownStepSucceeds(t, i, stepFaults);
        return Fatal("Error rolling back migration: " + err.value.Message()), rolledBack;
      }
      rolledBack := rolledBack + 1;
      i := i + 1;
    }
    return Done, rolledBack;
  }

  // -------------------------------------------------------------- status

  /** A line of the status report: position (from 1), name, whether it is
      applied, created-at. */
  datatype StatusLine = StatusLine(position: nat, name: string, applied: bool, createdAt: string)

  datatype StatusReport =
    | NoDirectory
    | LoadFailed(error: Error)
    | NoFiles
    | AppliedFailed(error: Error)
    | Report(files: nat, appliedCount: nat, lines: seq<StatusLine>)

  /** showMigrationStatus: a file is marked applied exactly when a row of the
      migrations table carries its name. */
  method ShowMigrationStatus(dirExists: bool, loaded: Result<seq<MigrationEntry>, Error>,
                             applied: Result<seq<MigrationEntry>, Error>)
    returns (report: StatusReport)
    ensures !dirExists ==> report == NoDirectory
    ensures dirExists && loaded.Failure? ==> report == LoadFailed(loaded.error)
    ensures dirExists && loaded == Ok([]) ==> report == NoFiles
    ensures dirExists && loaded.Ok? && loaded.value != [] && applied.Failure? ==>
              report == AppliedFailed(applied.error)
    ensures dirExists && loaded.Ok? && loaded.value != [] && applied.Ok? ==> report.Report?
    ensures report.Report? ==>
              loaded.Ok? && applied.Ok? && report.files == |loaded.value| > 0
              && report.appliedCount == |applied.value| && |report.lines| == |loaded.value|
              && forall i :: 0 <= i < |loaded.value| ==>
                   report.lines[i] == StatusLine(i + 1, loaded.value[i].name,
                                                 loaded.value[i].name in Names(applied.value),
                                                 loaded.value[i].createdAt)
  {
    if !dirExists {
      return NoDirectory;
    }
    if loaded.Failure? {
      return LoadFailed(loaded.error);
    }
    var migrations := loaded.value;
    if |migrations| == 0 {
      return NoFiles;
    }
    if applied.Failure? {
      return AppliedFailed(applied.error);
    }
    var rows := applied.value;
    var appliedMap: set<string> := {};
    var j := 0;
    while j < |rows|
      invariant 0 <= j <= |rows|
      invariant appliedMap == Names(rows[..j])
    {
      NamesAppend(rows[..j], [rows[j]]);
      assert rows[..j + 1] == rows[..j] + [rows[j]];
      appliedMap := appliedMap + {rows[j].name};
      j := j + 1;
    }
    assert rows[..j] == rows;
    var lines: seq<StatusLine> := [];
    var i := 0;
    while i < |migrations|
      invariant 0 <= i <= |migrations| && |lines| == i
      invariant forall k :: 0 <= k < i ==>
                  lines[k] == StatusLine(k + 1, migrations[k].name, migrations[k].name in appliedMap,
                                         migrations[k].createdAt)
    {
      var m := migrations[i];
      lines := lines + [StatusLine(i + 1, m.name, m.name in appliedMap, m.createdAt)];
      i := i + 1;
    }
    return Report(|migrations|, |rows|, lines);
  }

  /** rollbackToMigration: a target is required; the rollback's error is
      fatal. */
  method RollbackTo(db: MigrationDb, target: string, queryErr: Option<Error>, faults: string -> TxFaults)
    returns (outcome: Outcome)
    requires db.Valid()
    modifies db
    ensures db.Valid()
    ensures target == "" ==>
              outcome == Fatal("Error: target migration name is required for rollback-to command")
              && db.table == old(db.table)
    ensures |db.table| <= |old(db.table)| && db.table == old(db.table)[..|db.table|]
    ensures outcome == Done ==>
              target in Names(old(db.table)) && |db.table| == RowIndex(old(db.table), target) + 1
    ensures outcome == Done <==>
              target != "" && queryErr.None? && target in Names(old(db.table))
              && forall j :: RowIndex(old(db.table), target) < j < |old(db.table)| ==>
                               RollbackSucceeds(old(db.table)[j], faults(old(db.table)[j].name))
  {
    if target == "" {
      return Fatal("Error: target migration name is required for rollback-to command");
    }
    var err, _ := db.RollbackToMigration(target, queryErr, faults);
    if err.Some? {
      return Fatal("Error rolling back to migration: " + err.value.Message());
    }
    return Done;
  }
}
