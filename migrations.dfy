/** The migration system (internals/db/migration_system.go): the listing of
    migration files, their loading, the transactional apply run over the
    migrations table, the three rollbacks and the naming of new files.  The
    file system, the clock and the SQL the migrations carry are inputs; the
    migrations table and the statements committed against the database are
    the state. */
module Migrations {
  import opened Wrappers
  import opened GoStrings
  import opened Errors

  const UpSuffix := ".up.sql"
  const DownSuffix := ".down.sql"

  // ------------------------------------------------------------- listing

  /** An entry of the migration directory. */
  datatype DirEntry = DirEntry(name: string, isDir: bool)

  /** The base names of the up files, in directory order. */
  function UpBaseNames(entries: seq<DirEntry>): (r: seq<string>)
    ensures |r| <= |entries|
    ensures forall n :: n in r ==> DirEntry(n + UpSuffix, false) in entries
    ensures forall i :: 0 <= i < |entries| && !entries[i].isDir && HasSuffix(entries[i].name, UpSuffix) ==>
              TrimSuffix(entries[i].name, UpSuffix) in r
  {
    if entries == [] then []
    else
      var init := entries[..|entries| - 1];
      var rest := UpBaseNames(init);
      var e := entries[|entries| - 1];
      assert forall i :: 0 <= i < |init| ==> entries[i] == init[i];
      if !e.isDir && HasSuffix(e.name, UpSuffix) then rest + [TrimSuffix(e.name, UpSuffix)] else rest
  }

  /** `a` sorts no later than `b`. */
  predicate NotAfter(a: string, b: string)
  {
    a == b || Less(a, b)
  }

  predicate Sorted(s: seq<string>)
  {
    forall i :: 0 <= i < |s| - 1 ==> NotAfter(s[i], s[i + 1])
  }

  /** Inserting into a sorted sequence keeps it sorted. */
  function Insert(x: string, s: seq<string>): (r: seq<string>)
    requires Sorted(s)
    ensures Sorted(r)
    ensures multiset(r) == multiset(s) + multiset{x}
    ensures r[0] == x || (s != [] && r[0] == s[0])
  {
    if s == [] then [x]
    else if NotAfter(x, s[0]) then [x] + s
    else
      LessTotal(x, s[0]);
      var rest := Insert(x, s[1..]);
      assert s == [s[0]] + s[1..];
      [s[0]] + rest
  }

  /** sort.Strings: ascending order, same elements. */
  function SortStrings(s: seq<string>): (r: seq<string>)
    ensures Sorted(r)
    ensures multiset(r) == multiset(s)
  {
    if s == [] then []
    else
      assert s == s[..|s| - 1] + [s[|s| - 1]];
      Insert(s[|s| - 1], SortStrings(s[..|s| - 1]))
  }

  /** getMigrationFiles: the non-directory entries ending in ".up.sql", with
      the suffix removed, sorted. */
  method GetMigrationFiles(listing: Result<seq<DirEntry>, Error>) returns (r: Result<seq<string>, Error>)
    ensures listing.Failure? ==> r == Failure(listing.error)
    ensures listing.Ok? ==> r == Ok(SortStrings(UpBaseNames(listing.value)))
    ensures r.Ok? ==> Sorted(r.value)
    ensures r.Ok? ==> forall n :: n in r.value ==> DirEntry(n + UpSuffix, false) in listing.value
  {
    if listing.Failure? {
      return Failure(listing.error);
    }
    var entries := listing.value;
    var found: seq<string> := [];
    var i := 0;
    while i < |entries|
      invariant 0 <= i <= |entries|
      invariant found == UpBaseNames(entries[..i])
    {
      var e := entries[i];
      assert entries[..i + 1][..i] == entries[..i];
      if !e.isDir && HasSuffix(e.name, UpSuffix) {
        found := found + [TrimSuffix(e.name, UpSuffix)];
      }
      i := i + 1;
    }
    assert entries[..i] == entries;
    var sorted := SortStrings(found);
    assert forall n :: n in sorted ==> n in multiset(found);
    return Ok(sorted);
  }

  // ------------------------------------------------------------- loading

  /** A row of the migrations table, and a loaded migration file pair. */
  datatype MigrationEntry = MigrationEntry(name: string, sqlUp: string, sqlDown: string, createdAt: string)

  /** The created-at of a migration: its name up to the first "_". */
  function CreatedAt(baseName: string): string
  {
    Split(baseName, '_')[0]
  }

  /** The first piece of the split is the prefix before the first "_". */
  lemma {:induction false} CreatedAtIsPrefix(baseName: string)
    ensures CreatedAt(baseName) == baseName[..IndexOf(baseName, '_')]
  {
    var k := IndexOf(baseName, '_');
    if k == |baseName| {
      SplitNoSep(baseName, '_');
      assert baseName[..k] == baseName;
    } else {
      assert baseName == baseName[..k] + ['_'] + baseName[k + 1..];
      SplitAtFirst(baseName[..k], '_', baseName[k + 1..]);
    }
  }

  /** LoadMigrations for one base name: the up file must be readable; the
      down file is read only when it exists. `read` and `present` stand for
      os.ReadFile and os.Stat on a file of the migration directory. */
  function LoadEntry(baseName: string, read: string -> Result<string, Error>, present: string -> bool)
    : (r: Result<MigrationEntry, Error>)
    ensures read(baseName + UpSuffix).Failure? ==>
              r == Failure(Wrapped("failed to read up migration file " + (baseName + UpSuffix) + ": ",
                                   read(baseName + UpSuffix).error))
    ensures r.Ok? ==> r.value.name == baseName && r.value.createdAt == CreatedAt(baseName)
                      && r.value.sqlUp == read(baseName + UpSuffix).value
    ensures r.Ok? && !present(baseName + DownSuffix) ==> r.value.sqlDown == ""
    ensures r.Ok? && present(baseName + DownSuffix) ==> read(baseName + DownSuffix) == Ok(r.value.sqlDown)
    ensures r.Ok? <==>
              read(baseName + UpSuffix).Ok? && (!present(baseName + DownSuffix) || read(baseName + DownSuffix).Ok?)
    ensures read(baseName + UpSuffix).Ok? && present(baseName + DownSuffix) && read(baseName + DownSuffix).Failure? ==>
              r == Failure(Wrapped("failed to read down migration file " + (baseName + DownSuffix) + ": ",
                                   read(baseName + DownSuffix).error))
  {
    var upFile := baseName + UpSuffix;
    var downFile := baseName + DownSuffix;
    match read(upFile)
    case Failure(e) => Failure(Wrapped("failed to read up migration file " + upFile + ": ", e))
    case Ok(up) =>
      if !present(downFile) then Ok(MigrationEntry(baseName, up, "", CreatedAt(baseName)))
      else match read(downFile)
        case Failure(e) => Failure(Wrapped("failed to read down migration file " + downFile + ": ", e))
        case Ok(down) => Ok(MigrationEntry(baseName, up, down, CreatedAt(baseName)))
  }

  /** Loading a list of base names: the first failure in order, or one
      entry per name. */
  function LoadAll(names: seq<string>, read: string -> Result<string, Error>, present: string -> bool)
    : (r: Result<seq<MigrationEntry>, Error>)
    ensures r.Ok? ==> |r.value| == |names|
                      && forall i :: 0 <= i < |names| ==> LoadEntry(names[i], read, present) == Ok(r.value[i])
  {
    if names == [] then Ok([])
    else match LoadAll(names[..|names| - 1], read, present)
      case Failure(e) => Failure(e)
      case Ok(entries) =>
        match LoadEntry(names[|names| - 1], read, present)
        case Failure(e) => Failure(e)
        case Ok(entry) => Ok(entries + [entry])
  }

  /** Once a prefix fails, every longer prefix fails with the same error. */
  lemma {:induction false} LoadAllFailureSticks(names: seq<string>, read: string -> Result<string, Error>,
                                                present: string -> bool, j: nat, k: nat)
    requires j <= k <= |names|
    requires LoadAll(names[..j], read, present).Failure?
    ensures LoadAll(names[..k], read, present) == LoadAll(names[..j], read, present)
    decreases k - j
  {
    if j < k {
      LoadAllFailureSticks(names, read, present, j, k - 1);
      assert names[..k][..k - 1] == names[..k - 1];
    }
  }

  /** One more file pair read by the load loop. */
  lemma LoadAllStep(names: seq<string>, read: string -> Result<string, Error>, present: string -> bool, i: nat)
    requires i < |names| && LoadAll(names[..i], read, present).Ok?
    ensures var entry := LoadEntry(names[i], read, present);
            LoadAll(names[..i + 1], read, present)
              == if entry.Failure? then Failure(entry.error)
                 else Ok(LoadAll(names[..i], read, present).value + [entry.value])
  {
    assert names[..i + 1][..i] == names[..i];
  }

  /** LoadMigrations: list, then read each pair in sorted order. */
  method LoadMigrations(listing: Result<seq<DirEntry>, Error>, read: string -> Result<string, Error>,
                        present: string -> bool)
    returns (r: Result<seq<MigrationEntry>, Error>)
    ensures listing.Failure? ==> r == Failure(listing.error)
    ensures listing.Ok? ==> r == LoadAll(SortStrings(UpBaseNames(listing.value)), read, present)
  {
    var files := GetMigrationFiles(listing);
    if files.Failure? {
      return Failure(files.error);
    }
    var names := files.value;
    var loaded: seq<MigrationEntry> := [];
    var i := 0;
    while i < |names|
      invariant 0 <= i <= |names|
      invariant LoadAll(names[..i], read, present) == Ok(loaded)
    {
      LoadAllStep(names, read, present, i);
      var entry := LoadEntry(names[i], read, present);
      if entry.Failure? {
        LoadAllFailureSticks(names, read, present, i + 1, |names|);
        assert names[..|names|] == names;
        return Failure(entry.error);
      }
      loaded := loaded + [entry.value];
      i := i + 1;
    }
    assert names[..i] == names;
    return Ok(loaded);
  }

  // ---------------------------------------------------------------- naming

  /** The time layout "20060102150405": fourteen digits. */
  predicate IsTimestamp(t: string)
  {
    |t| == 14 && AllDigits(t)
  }

  /** CreateMigrationFile's base name and its two file names. */
  function BaseName(timestamp: string, name: string): string
  {
    timestamp + "_" + name
  }

  function MigrationFileNames(timestamp: string, name: string): (r: (string, string))
    ensures r.0 == BaseName(timestamp, name) + UpSuffix && r.1 == BaseName(timestamp, name) + DownSuffix
  {
    (BaseName(timestamp, name) + UpSuffix, BaseName(timestamp, name) + DownSuffix)
  }

  /** A created pair is listed under its base name, and the timestamp it
      was named with is its created-at. */
  lemma CreatedFilesAreListed(timestamp: string, name: string)
    requires IsTimestamp(timestamp)
    ensures var base := BaseName(timestamp, name);
            UpBaseNames([DirEntry(MigrationFileNames(timestamp, name).0, false)]) == [base]
            && CreatedAt(base) == timestamp
  {
    var base := BaseName(timestamp, name);
    var up := base + UpSuffix;
    assert HasSuffix(up, UpSuffix) by { assert up[|up| - |UpSuffix|..] == UpSuffix; }
    assert TrimSuffix(up, UpSuffix) == base;
    assert '_' !in timestamp by {
      forall i | 0 <= i < |timestamp| ensures timestamp[i] != '_' { assert IsDigit(timestamp[i]); }
    }
    assert base == timestamp + ['_'] + name;
    SplitAtFirst(timestamp, '_', name);
  }

  /** A directory path joined with a file name. */
  function JoinPath(dir: string, file: string): string
  {
    if dir == "" then file else dir + "/" + file
  }

  /** What CreateMigrationFile did: its result and the files it created.
      The `*Err` inputs are the failures of MkdirAll, of creating and of
      writing each file. */
  function CreateMigrationFile(dir: string, name: string, timestamp: string, mkdirErr: Option<Error>,
                               upCreateErr: Option<Error>, upWriteErr: Option<Error>,
                               downCreateErr: Option<Error>, downWriteErr: Option<Error>)
    : (r: (Result<(string, string), Error>, seq<string>))
    ensures mkdirErr.Some? ==> r.1 == []
    ensures r.0.Ok? <==> mkdirErr.None? && upCreateErr.None? && upWriteErr.None?
                         && downCreateErr.None? && downWriteErr.None?
    ensures r.0.Ok? ==> r.0.value == (JoinPath(dir, MigrationFileNames(timestamp, name).0),
                                      JoinPath(dir, MigrationFileNames(timestamp, name).1))
                        && r.1 == [r.0.value.0, r.0.value.1]
    ensures mkdirErr.None? && upCreateErr.None? && (upWriteErr.Some? || downCreateErr.Some?) ==>
              r.1 == [JoinPath(dir, MigrationFileNames(timestamp, name).0)]
  {
    var (upFile, downFile) := MigrationFileNames(timestamp, name);
    var upPath := JoinPath(dir, upFile);
    var downPath := JoinPath(dir, downFile);
    if mkdirErr.Some? then (Failure(Wrapped("failed to create migration directory: ", mkdirErr.value)), [])
    else if upCreateErr.Some? then (Failure(Wrapped("failed to create up migration file: ", upCreateErr.value)), [])
    else if upWriteErr.Some? then (Failure(Wrapped("failed to write up migration template: ", upWriteErr.value)), [upPath])
    else if downCreateErr.Some? then
      (Failure(Wrapped("failed to create down migration file: ", downCreateErr.value)), [upPath])
    else if downWriteErr.Some? then
      (Failure(Wrapped("failed to write down migration template: ", downWriteErr.value)), [upPath, downPath])
    else (Ok((upPath, downPath)), [upPath, downPath])
  }

  // ------------------------------------------------------- the database

  function Names(table: seq<MigrationEntry>): set<string>
  {
    set i | 0 <= i < |table| :: table[i].name
  }

  /** The name column is the primary key. */
  predicate UniqueNames(table: seq<MigrationEntry>)
  {
    forall i, j :: 0 <= i < j < |table| ==> table[i].name != table[j].name
  }

  /** The migrations to run: those whose name is not recorded, in order. */
  function Pending(migrations: seq<MigrationEntry>, applied: set<string>): (r: seq<MigrationEntry>)
    ensures |r| <= |migrations|
  {
    if migrations == [] then []
    else
      var rest := Pending(migrations[..|migrations| - 1], applied);
      var m := migrations[|migrations| - 1];
      if m.name in applied then rest else rest + [m]
  }

  /** Only migrations given and not yet recorded are pending. */
  lemma {:induction false} PendingAreNew(migrations: seq<MigrationEntry>, applied: set<string>)
    ensures forall m :: m in Pending(migrations, applied) ==> m in migrations && m.name !in applied
  {
    if migrations != [] {
      var init := migrations[..|migrations| - 1];
      PendingAreNew(init, applied);
      assert forall m :: m in init ==> m in migrations;
    }
  }

  function UpScripts(migrations: seq<MigrationEntry>): (r: seq<string>)
    ensures |r| == |migrations| && forall i :: 0 <= i < |r| ==> r[i] == migrations[i].sqlUp
  {
    if migrations == [] then [] else UpScripts(migrations[..|migrations| - 1]) + [migrations[|migrations| - 1].sqlUp]
  }

  lemma NamesAppend(table: seq<MigrationEntry>, more: seq<MigrationEntry>)
    ensures Names(table + more) == Names(table) + Names(more)
  {
    var all := table + more;
    forall n | n in Names(all) ensures n in Names(table) + Names(more)
    {
      var i :| 0 <= i < |all| && all[i].name == n;
      if i >= |table| { assert more[i - |table|] == all[i]; }
    }
    forall n | n in Names(more) ensures n in Names(all)
    {
      var i :| 0 <= i < |more| && more[i].name == n;
      assert all[|table| + i] == more[i];
    }
    forall n | n in Names(table) ensures n in Names(all)
    {
      var i :| 0 <= i < |table| && table[i].name == n;
      assert all[i] == table[i];
    }
  }

  lemma UniqueAppend(table: seq<MigrationEntry>, m: MigrationEntry)
    requires UniqueNames(table) && m.name !in Names(table)
    ensures UniqueNames(table + [m])
  {
  }

  /** One more migration considered by the apply loop. */
  lemma PendingStep(migrations: seq<MigrationEntry>, i: nat, applied: set<string>)
    requires i < |migrations|
    ensures var before := Pending(migrations[..i], applied);
            Pending(migrations[..i + 1], applied)
              == if migrations[i].name in applied then before else before + [migrations[i]]
    ensures var before := Pending(migrations[..i], applied);
            UpScripts(before + [migrations[i]]) == UpScripts(before) + [migrations[i].sqlUp]
  {
    assert migrations[..i + 1][..i] == migrations[..i];
    var before := Pending(migrations[..i], applied);
    assert (before + [migrations[i]])[..|before|] == before;
  }

  /** Every migration given is recorded after a run that applied its
      pending ones, so a second run has nothing to do. */
  lemma {:induction false} PendingCovers(migrations: seq<MigrationEntry>, applied: set<string>)
    ensures forall m :: m in migrations ==> m.name in applied || m.name in Names(Pending(migrations, applied))
  {
    if migrations != [] {
      var init := migrations[..|migrations| - 1];
      PendingCovers(init, applied);
      var m := migrations[|migrations| - 1];
      var rest := Pending(init, applied);
      assert migrations == init + [m];
      if m.name !in applied {
        NamesAppend(rest, [m]);
        assert Names([m]) == {m.name};
      }
    }
  }

  lemma {:induction false} NothingPendingWhenCovered(migrations: seq<MigrationEntry>, applied: set<string>)
    requires forall m :: m in migrations ==> m.name in applied
    ensures Pending(migrations, applied) == []
  {
    if migrations != [] {
      NothingPendingWhenCovered(migrations[..|migrations| - 1], applied);
    }
  }

  /** The apply loop's working copies after one more pending migration. */
  lemma ApplyStep(migrations: seq<MigrationEntry>, i: nat, applied: set<string>, table: seq<MigrationEntry>,
                  schema: seq<string>, txTable: seq<MigrationEntry>, txSchema: seq<string>)
    requires i < |migrations| && migrations[i].name !in applied
    requires txTable == table + Pending(migrations[..i], applied)
    requires txSchema == schema + UpScripts(Pending(migrations[..i], applied))
    ensures txTable + [migrations[i]] == table + Pending(migrations[..i + 1], applied)
    ensures txSchema + [migrations[i].sqlUp] == schema + UpScripts(Pending(migrations[..i + 1], applied))
    ensures |Pending(migrations[..i + 1], applied)| == |Pending(migrations[..i], applied)| + 1
  {
    PendingStep(migrations, i, applied);
  }

  /** What a transaction may fail on: Begin, the first query, the SQL a
      statement carries, the row write (insert or delete), Commit. */
  datatype TxFaults = TxFaults(begin: Option<Error>, query: Option<Error>, exec: string -> Option<Error>,
                               write: Option<Error>, commit: Option<Error>)

  /** A run of the pending migrations that nothing stops: every up script
      executes, the row inserts succeed, and no name is recorded twice. */
  predicate CleanRun(table: seq<MigrationEntry>, pending: seq<MigrationEntry>, exec: string -> Option<Error>,
                     insertErr: Option<Error>)
  {
    (forall k :: 0 <= k < |pending| ==> exec(pending[k].sqlUp).None?)
    && (pending == [] || insertErr.None?)
    && UniqueNames(table + pending)
  }

  /** A clean run is clean on every prefix of its migrations. */
  lemma CleanRunPrefix(table: seq<MigrationEntry>, pending: seq<MigrationEntry>, n: nat,
                       exec: string -> Option<Error>, insertErr: Option<Error>)
    requires n <= |pending| && CleanRun(table, pending, exec, insertErr)
    ensures CleanRun(table, pending[..n], exec, insertErr)
  {
    assert table + pending[..n] == (table + pending)[..|table| + n];
  }

  /** A run extended by one migration is clean exactly when the shorter
      run is and that migration's step succeeds. */
  lemma CleanRunStep(table: seq<MigrationEntry>, p: seq<MigrationEntry>, m: MigrationEntry,
                     exec: string -> Option<Error>, insertErr: Option<Error>)
    ensures CleanRun(table, p + [m], exec, insertErr) <==>
              CleanRun(table, p, exec, insertErr) && exec(m.sqlUp).None? && m.name !in Names(table + p)
              && insertErr.None?
  {
    var x := table + p;
    assert table + (p + [m]) == x + [m];
    assert (p + [m])[|p|] == m;
    assert forall k :: 0 <= k < |p| ==> (p + [m])[k] == p[k];
    if UniqueNames(x + [m]) {
      forall i | 0 <= i < |x|
        ensures x[i].name != m.name
      {
        assert (x + [m])[i] == x[i] && (x + [m])[|x|] == m;
      }
      assert forall i, j :: 0 <= i < j < |x| ==> (x + [m])[i] == x[i] && (x + [m])[j] == x[j];
    }
    if UniqueNames(x) && m.name !in Names(x) {
      UniqueAppend(x, m);
    }
  }

  /** The migrations pending among a prefix are a prefix of those pending
      among all. */
  lemma {:induction false} PendingPrefix(migrations: seq<MigrationEntry>, i: nat, applied: set<string>)
    requires i <= |migrations|
    ensures |Pending(migrations[..i], applied)| <= |Pending(migrations, applied)|
    ensures Pending(migrations, applied)[..|Pending(migrations[..i], applied)|] == Pending(migrations[..i], applied)
    decreases |migrations| - i
  {
    if i == |migrations| {
      assert migrations[..i] == migrations;
    } else {
      PendingPrefix(migrations, i + 1, applied);
      PendingStep(migrations, i, applied);
    }
  }

  /** A migration whose step fails spoils the whole run. */
  lemma StepFailureSpoilsRun(table: seq<MigrationEntry>, migrations: seq<MigrationEntry>, i: nat,
                             applied: set<string>, exec: string -> Option<Error>, insertErr: Option<Error>)
    requires i < |migrations| && migrations[i].name !in applied
    requires !CleanRun(table, Pending(migrations[..i], applied) + [migrations[i]], exec, insertErr)
    ensures !CleanRun(table, Pending(migrations, applied), exec, insertErr)
  {
    PendingStep(migrations, i, applied);
    PendingPrefix(migrations, i + 1, applied);
    if CleanRun(table, Pending(migrations, applied), exec, insertErr) {
      CleanRunPrefix(table, Pending(migrations, applied), |Pending(migrations[..i + 1], applied)|, exec, insertErr);
    }
  }

  /** The loop of RunMigrationsFromPath inside its transaction: each
      migration not in `applied` is executed and inserted into the working
      copy of the table; the first failure stops it. */
  method ApplyPending(migrations: seq<MigrationEntry>, applied: set<string>, table: seq<MigrationEntry>,
                      schema: seq<string>, exec: string -> Option<Error>, insertErr: Option<Error>)
    returns (err: Option<Error>, txTable: seq<MigrationEntry>, txSchema: seq<string>, appliedCount: nat)
    requires UniqueNames(table)
    ensures err.None? ==>
              var pending := Pending(migrations, applied);
              txTable == table + pending && txSchema == schema + UpScripts(pending)
              && appliedCount == |pending| && UniqueNames(txTable)
    ensures err.None? <==> CleanRun(table, Pending(migrations, applied), exec, insertErr)
  {
    txTable, txSchema, appliedCount := table, schema, 0;
    var i := 0;
    assert table + [] == table;
    while i < |migrations|
      invariant 0 <= i <= |migrations|
      invariant txTable == table + Pending(migrations[..i], applied)
      invariant txSchema == schema + UpScripts(Pending(migrations[..i], applied))
      invariant appliedCount == |Pending(migrations[..i], applied)|
      invariant UniqueNames(txTable)
      invariant CleanRun(table, Pending(migrations[..i], applied), exec, insertErr)
    {
      var m := migrations[i];
      PendingStep(migrations, i, applied);
      if m.name in applied {
        i := i + 1;
        continue;
      }
      var stepErr := ApplyOne(m, txTable, exec, insertErr);
      CleanRunStep(table, Pending(migrations[..i], applied), m, exec, insertErr);
      if stepErr.Some? {
        StepFailureSpoilsRun(table, migrations, i, applied, exec, insertErr);
        return stepErr, txTable, txSchema, 0;
      }
      UniqueAppend(txTable, m);
      ApplyStep(migrations, i, applied, table, schema, txTable, txSchema);
      txTable := txTable + [m];
      txSchema := txSchema + [m.sqlUp];
      appliedCount := appliedCount + 1;
      i := i + 1;
    }
    assert migrations[..i] == migrations;
    err := None;
  }

  /** One pending migration inside the transaction: its up script, then the
      insert of its row, which the primary key refuses for a recorded name. */
  method ApplyOne(m: MigrationEntry, txTable: seq<MigrationEntry>, exec: string -> Option<Error>,
                  insertErr: Option<Error>)
    returns (err: Option<Error>)
    ensures err.None? <==> exec(m.sqlUp).None? && m.name !in Names(txTable) && insertErr.None?
    ensures exec(m.sqlUp).Some? ==>
              err == Some(Wrapped("failed to execute migration " + m.name + ": ", exec(m.sqlUp).value))
  {
    var execErr := exec(m.sqlUp);
    if execErr.Some? {
      return Some(Wrapped("failed to execute migration " + m.name + ": ", execErr.value));
    }
    if m.name in Names(txTable) {
      return Some(Wrapped("failed to insert migration record for " + m.name + ": ",
                          AlreadyExists("migrations", "name", m.name)));
    }
    if insertErr.Some? {
      return Some(Wrapped("failed to insert migration record for " + m.name + ": ", insertErr.value));
    }
    return None;
  }

  /** The search of RollbackToMigration: the first position holding the
      target, or -1. */
  method FindTarget(newest: seq<MigrationEntry>, target: string) returns (index: int)
    ensures -1 <= index < |newest|
    ensures index == -1 <==> forall j :: 0 <= j < |newest| ==> newest[j].name != target
    ensures index >= 0 ==> newest[index].name == target && forall j :: 0 <= j < index ==> newest[j].name != target
  {
    index := -1;
    var k := 0;
    while k < |newest|
      invariant 0 <= k <= |newest|
      invariant forall j :: 0 <= j < k ==> newest[j].name != target
    {
      if newest[k].name == target {
        return k;
      }
      k := k + 1;
    }
  }

  /** The migrations table and the statements committed so far. */
  class MigrationDb {
    var table: seq<MigrationEntry>
    var schema: seq<string>

    ghost predicate Valid()
      reads this
    {
      UniqueNames(table)
    }

    constructor ()
      ensures table == [] && schema == [] && Valid()
    {
      table := [];
      schema := [];
    }

    /** The scan of "SELECT name FROM migrations" into a set. */
    method AppliedNames() returns (applied: set<string>)
      ensures applied == Names(table)
    {
      applied := {};
      var i := 0;
      while i < |table|
        invariant 0 <= i <= |table|
        invariant applied == Names(table[..i])
      {
        assert table[..i + 1][..i] == table[..i];
        applied := applied + {table[i].name};
        i := i + 1;
      }
      assert table[..i] == table;
    }

    /** RunMigrationsFromPath.  `loaded` is LoadMigrations' result and
        `createErr` the failure of creating the table.  Every pending
        migration is executed and recorded inside one transaction: any
        failure leaves the table and the schema as they were. */
    method RunMigrations(loaded: Result<seq<MigrationEntry>, Error>, createErr: Option<Error>, faults: TxFaults)
      returns (err: Option<Error>, appliedCount: nat)
      requires Valid()
      modifies this
      ensures Valid()
      ensures createErr.Some? ==> err == Some(Wrapped("failed to create migrations table: ", createErr.value))
      ensures createErr.None? && loaded.Failure? ==> err == Some(Wrapped("failed to load migrations: ", loaded.error))
      ensures err.Some? ==> table == old(table) && schema == old(schema) && appliedCount == 0
      ensures err.None? ==>
                var pending := Pending(loaded.value, Names(old(table)));
                table == old(table) + pending && schema == old(schema) + UpScripts(pending)
                && appliedCount == |pending|
      ensures err.None? <==>
                createErr.None? && loaded.Ok?
                && (loaded.value == []
                    || (faults.begin.None? && faults.query.None? && faults.commit.None?
                        && CleanRun(old(table), Pending(loaded.value, Names(old(table))), faults.exec, faults.write)))
    {
      appliedCount := 0;
      if createErr.Some? {
        return Some(Wrapped("failed to create migrations table: ", createErr.value)), 0;
      }
      if loaded.Failure? {
        return Some(Wrapped("failed to load migrations: ", loaded.error)), 0;
      }
      var migrations := loaded.value;
      if |migrations| == 0 {
        return None, 0;
      }
      if faults.begin.Some? {
        return Some(Wrapped("failed to begin transaction: ", faults.begin.value)), 0;
      }
      if faults.query.Some? {
        return Some(Wrapped("failed to query for applied migrations: ", faults.query.value)), 0;
      }
      var applied := AppliedNames();
      var txTable, txSchema, count;
      err, txTable, txSchema, count := ApplyPending(migrations, applied, table, schema, faults.exec, faults.write);
      if err.Some? {
        return err, 0;
      }
      if faults.commit.Some? {
        return Some(Wrapped("failed to commit transaction: ", faults.commit.value)), 0;
      }
      table := txTable;
      schema := txSchema;
      return None, count;
    }

    /** GetAppliedMigrations: the rows, newest first. */
    function GetAppliedMigrations(queryErr: Option<Error>): (r: Result<seq<MigrationEntry>, Error>)
      reads this
      ensures queryErr.Some? ==> r == Failure(Wrapped("failed to query applied migrations: ", queryErr.value))
      ensures r.Ok? <==> queryErr.None?
      ensures r.Ok? ==> |r.value| == |table| && forall i :: 0 <= i < |table| ==> r.value[i] == table[|table| - 1 - i]
    {
      if queryErr.Some? then Failure(Wrapped("failed to query applied migrations: ", queryErr.value))
      else Ok(NewestFirst(table))
    }

    /** RollbackMigration: the row must exist and carry down SQL; the down
        SQL is executed and the row deleted in one transaction. */
    method RollbackMigration(name: string, faults: TxFaults) returns (err: Option<Error>)
      requires Valid()
      modifies this
      ensures Valid()
      ensures err.Some? ==> table == old(table) && schema == old(schema)
      ensures faults.begin.None? && faults.query.Some? ==>
                err == Some(Wrapped("failed to get migration details: ", faults.query.value))
      ensures faults.begin.None? && faults.query.None? && name !in Names(old(table)) ==>
                err == Some(Plain("migration " + name + " not found or not applied"))
      ensures err.None? <==> name in Names(old(table)) && RollbackSucceeds(RowNamed(old(table), name), faults)
      ensures err.None? ==>
                var i := RowIndex(old(table), name);
                table == old(table)[..i] + old(table)[i + 1..] && schema == old(schema) + [old(table)[i].sqlDown]
    {
      if faults.begin.Some? {
        return Some(Wrapped("failed to begin transaction: ", faults.begin.value));
      }
      if faults.query.Some? {
        return Some(Wrapped("failed to get migration details: ", faults.query.value));
      }
      if name !in Names(table) {
        return Some(Plain("migration " + name + " not found or not applied"));
      }
      var i := RowIndex(table, name);
      var m := table[i];
      if m.sqlDown == "" {
        return Some(Plain("migration " + name + " has no down SQL - cannot rollback"));
      }
      var execErr := faults.exec(m.sqlDown);
      if execErr.Some? {
        return Some(Wrapped("failed to execute rollback for " + m.name + ": ", execErr.value));
      }
      if faults.write.Some? {
        return Some(Wrapped("failed to remove migration record for " + m.name + ": ", faults.write.value));
      }
      if faults.commit.Some? {
        return Some(Wrapped("failed to commit rollback transaction: ", faults.commit.value));
      }
      table := table[..i] + table[i + 1..];
      schema := schema + [m.sqlDown];
      return None;
    }

    /** RollbackLastMigration: the newest row is rolled back. */
    method RollbackLastMigration(queryErr: Option<Error>, faults: TxFaults) returns (err: Option<Error>)
      requires Valid()
      modifies this
      ensures Valid()
      ensures queryErr.None? && old(table) == [] ==> err == Some(Plain("no migrations to rollback"))
      ensures err.None? <==> queryErr.None? && old(table) != [] && RollbackSucceeds(old(table)[|old(table)| - 1], faults)
      ensures err.Some? ==> table == old(table) && schema == old(schema)
      ensures err.None? ==>
                old(table) != [] && table == old(table)[..|old(table)| - 1]
                && schema == old(schema) + [old(table)[|old(table)| - 1].sqlDown]
    {
      var applied := GetAppliedMigrations(queryErr);
      if applied.Failure? {
        return Some(Wrapped("failed to get applied migrations: ", applied.error));
      }
      if |applied.value| == 0 {
        return Some(Plain("no migrations to rollback"));
      }
      ghost var t := table;
      LastRowFound(t);
      err := RollbackMigration(applied.value[0].name, faults);
      if err.None? {
        assert t[..|t| - 1] + t[|t|..] == t[..|t| - 1];
      }
    }

    /** RollbackToMigration: every row newer than the target is rolled back,
        newest first, each in its own transaction; the target stays.  A
        failure stops the loop, and the rollbacks already done remain. */
    method RollbackToMigration(target: string, queryErr: Option<Error>, faults: string -> TxFaults)
      returns (err: Option<Error>, rolledBack: nat)
      requires Valid()
      modifies this
      ensures Valid()
      ensures queryErr.None? && target !in Names(old(table)) ==>
                err == Some(Plain("target migration " + target + " not found in applied migrations"))
                && table == old(table)
      ensures |table| <= |old(table)| && table == old(table)[..|table|]
      ensures err.None? ==>
                target in Names(old(table)) && |table| == RowIndex(old(table), target) + 1
                && table[|table| - 1].name == target && rolledBack == |old(table)| - |table|
      ensures err.None? <==>
                queryErr.None? && target in Names(old(table))
                && forall j :: RowIndex(old(table), target) < j < |old(table)| ==>
                                 RollbackSucceeds(old(table)[j], faults(old(table)[j].name))
    {
      rolledBack := 0;
      var applied := GetAppliedMigrations(queryErr);
      if applied.Failure? {
        return Some(Wrapped("failed to get applied migrations: ", applied.error)), 0;
      }
      var newest := applied.value;
      var targetIndex := FindTarget(newest, target);
      if targetIndex == -1 {
        assert forall j :: 0 <= j < |table| ==> table[j].name != target by {
          forall j | 0 <= j < |table| ensures table[j].name != target {
            assert newest[|table| - 1 - j] == table[j];
          }
        }
        return Some(Plain("target migration " + target + " not found in applied migrations")), 0;
      }
      ghost var t := table;
      assert t[|t| - 1 - targetIndex].name == target;
      IndexOfUnique(t, |t| - 1 - targetIndex);
      err, rolledBack := RollbackNewer(newest, targetIndex, faults);
      if forall k :: 0 <= k < targetIndex ==> RollbackSucceeds(newest[k], faults(newest[k].name)) {
        forall j | |t| - 1 - targetIndex < j < |t|
          ensures RollbackSucceeds(t[j], faults(t[j].name))
        {
          assert newest[|t| - 1 - j] == t[j];
        }
      } else {
        var k :| 0 <= k < targetIndex && !RollbackSucceeds(newest[k], faults(newest[k].name));
        assert newest[k] == t[|t| - 1 - k];
      }
    }

    /** The loop of RollbackToMigration: the `count` newest rows, newest
        first; the first failure stops it. */
    method RollbackNewer(newest: seq<MigrationEntry>, count: nat, faults: string -> TxFaults)
      returns (err: Option<Error>, rolledBack: nat)
      requires Valid() && count <= |table| && |newest| == |table|
      requires forall k :: 0 <= k < |newest| ==> newest[k] == table[|table| - 1 - k]
      modifies this
      ensures Valid()
      ensures rolledBack <= count && table == old(table)[..|old(table)| - rolledBack]
      ensures err.None? ==> rolledBack == count
      ensures err.None? <==> forall k :: 0 <= k < count ==> RollbackSucceeds(newest[k], faults(newest[k].name))
    {
      ghost var t := table;
      rolledBack := 0;
      var i := 0;
      while i < count
        invariant 0 <= i <= count
        invariant Valid()
        invariant table == t[..|t| - i]
        invariant rolledBack == i
        invariant forall k :: 0 <= k < i ==> RollbackSucceeds(newest[k], faults(newest[k].name))
      {
        var name := newest[i].name;
        assert t[..|t| - i][|t| - i - 1] == t[|t| - 1 - i];
        var e := RollbackNewest(name, faults(name));
        if e.Some? {
          return Some(Wrapped("failed to rollback migration " + name + ": ", e.value)), rolledBack;
        }
        assert table == t[..|t| - i - 1];
        rolledBack := rolledBack + 1;
        i := i + 1;
      }
      err := None;
    }

    /** RollbackMigration of the newest row, whose name is `name`. */
    method RollbackNewest(name: string, faults: TxFaults) returns (err: Option<Error>)
      requires Valid() && table != [] && table[|table| - 1].name == name
      modifies this
      ensures Valid()
      ensures err.Some? ==> table == old(table)
      ensures err.None? ==> table == old(table)[..|old(table)| - 1]
      ensures err.None? <==> RollbackSucceeds(old(table)[|old(table)| - 1], faults)
    {
      ghost var t := table;
      LastRowFound(table);
      err := RollbackMigration(name, faults);
      if err.None? {
        assert t[..|t| - 1] + t[|t|..] == t[..|t| - 1];
      }
    }
  }

  /** When rolling back a recorded migration succeeds: no fault on the
      way and down SQL to run. */
  predicate RollbackSucceeds(m: MigrationEntry, faults: TxFaults)
  {
    faults.begin.None? && faults.query.None? && m.sqlDown != "" && faults.exec(m.sqlDown).None?
    && faults.write.None? && faults.commit.None?
  }

  function NewestFirst(table: seq<MigrationEntry>): (r: seq<MigrationEntry>)
    ensures |r| == |table| && forall i :: 0 <= i < |table| ==> r[i] == table[|table| - 1 - i]
  {
    if table == [] then [] else [table[|table| - 1]] + NewestFirst(table[..|table| - 1])
  }

  /** The position of the row with a name. */
  function RowIndex(table: seq<MigrationEntry>, name: string): (i: nat)
    requires name in Names(table)
    ensures i < |table| && table[i].name == name
    ensures forall j :: 0 <= j < i ==> table[j].name != name
  {
    if table[0].name == name then 0
    else
      assert name in Names(table[1..]) by {
        var k :| 0 <= k < |table| && table[k].name == name;
        assert table[1..][k - 1] == table[k];
      }
      1 + RowIndex(table[1..], name)
  }

  /** The row with a name (the first, and with unique names the only one). */
  function RowNamed(table: seq<MigrationEntry>, name: string): MigrationEntry
    requires name in Names(table)
  {
    table[RowIndex(table, name)]
  }

  lemma IndexOfUnique(table: seq<MigrationEntry>, k: nat)
    requires UniqueNames(table) && k < |table|
    ensures RowIndex(table, table[k].name) == k
  {
  }

  /** Under unique names the newest row is found at the end. */
  lemma LastRowFound(table: seq<MigrationEntry>)
    requires UniqueNames(table) && table != []
    ensures table[|table| - 1].name in Names(table)
    ensures RowIndex(table, table[|table| - 1].name) == |table| - 1
  {
    IndexOfUnique(table, |table| - 1);
  }

  /** Applying twice: after a successful run over `migrations`, none of
      them is pending any more. */
  lemma RunIsIdempotent(table: seq<MigrationEntry>, migrations: seq<MigrationEntry>)
    ensures var after := table + Pending(migrations, Names(table));
            Pending(migrations, Names(after)) == []
  {
    var pending := Pending(migrations, Names(table));
    PendingCovers(migrations, Names(table));
    NamesAppend(table, pending);
    NothingPendingWhenCovered(migrations, Names(table + pending));
  }
}
