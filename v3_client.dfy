/**
 * The v3 side of the migrator: dumping a PostgreSQL or MySQL database over
 * SSH into a local dump file, deciding whether a dump is needed before the
 * database is recreated on v4, and migrating one application (its build
 * pack, the arguments of the v4 record, and its persistent storages, each
 * moved by a download whose completion starts an upload whose completion
 * creates the storage record).
 */
module V3Client {
  import opened JsString
  import opened RemoteExec
  import opened Transfer

  // ---------------------------------------------------------------------------
  // Secrets
  // ---------------------------------------------------------------------------

  /**
   * An encrypted column as stored, and what deciphering its JSON payload
   * yields (`None` when parsing or deciphering throws); the cipher itself is
   * not modelled.
   */
  datatype Secret = Secret(stored: Option<string>, deciphered: Option<string>)

  /** `V3Utils.decrypt`: `undefined` for a falsy input, the input itself when deciphering throws. */
  function Decrypt(s: Secret): Option<string>
  {
    if Falsy(s.stored) then None
    else if s.deciphered.None? then s.stored
    else s.deciphered
  }

  /** A decrypted secret is falsy exactly when the column is empty or it deciphers to the empty text. */
  lemma DecryptFalsy(s: Secret)
    ensures Falsy(Decrypt(s)) <==> Falsy(s.stored) || s.deciphered == Some("")
    ensures !Falsy(Decrypt(s)) ==> Decrypt(s) == s.stored || Decrypt(s) == s.deciphered
  {
  }

  /** The text a template literal interpolates for a nullable column. */
  function Interp(s: Option<string>): string
  {
    if s.None? then "null" else s.value
  }

  // ---------------------------------------------------------------------------
  // Database dumps
  // ---------------------------------------------------------------------------

  datatype Engine = PostgreSQL | MySQL

  /** The value of the `type` column that selects an engine. */
  function TypeName(e: Engine): string
  {
    match e
    case PostgreSQL => "postgresql"
    case MySQL => "mysql"
  }

  datatype Database = Database(
    id: string,
    name: string,
    dbType: string,
    dbUser: Option<string>,
    defaultDatabase: Option<string>,
    dbUserPassword: Secret,
    rootUserPassword: Secret)

  /** Both decrypted passwords are truthy: the guard in front of every dump. */
  predicate PasswordsOk(db: Database)
  {
    !Falsy(Decrypt(db.dbUserPassword)) && !Falsy(Decrypt(db.rootUserPassword))
  }

  /** The command each dump runs in the database's container on the v3 host. */
  function DumpCommand(engine: Engine, db: Database, dbPassword: string): string
  {
    match engine
    case PostgreSQL =>
      "docker exec " + db.id + " sh -c \"PGPASSWORD=" + dbPassword
      + " pg_dump --format=custom --no-acl --no-owner --username " + Interp(db.dbUser)
      + " " + Interp(db.defaultDatabase) + "\""
    case MySQL =>
      "docker exec " + db.id + " sh -c \"mysqldump -u " + Interp(db.dbUser)
      + " -p" + dbPassword + " " + Interp(db.defaultDatabase) + "\""
  }

  /** The dump file of a database, relative to the migrator's root. */
  function DumpPath(id: string): Path
  {
    "data/" + id + "/" + id + ".dmp"
  }

  /** The text of a local file, empty when it does not exist (what `appendFileSync` appends to). */
  function FileText(files: map<Path, string>, p: Path): string
  {
    if p in files then files[p] else ""
  }

  /** The local files after the `data` listener appended every stdout chunk of `cs` to `p`. */
  function AppendStdout(files: map<Path, string>, p: Path, cs: seq<Chunk>): map<Path, string>
  {
    if cs == [] then files
    else
      var f := AppendStdout(files, p, cs[..|cs| - 1]);
      if cs[|cs| - 1].Stdout? then f[p := FileText(f, p) + cs[|cs| - 1].data] else f
  }

  /**
   * The dump file receives the whole stdout output in order, appended to what
   * it held; it is created by the first stdout chunk, so a stream without any
   * leaves every file as it was.  No other file changes.
   */
  lemma {:induction false} AppendStdoutSpec(files: map<Path, string>, p: Path, cs: seq<Chunk>)
    ensures AppendStdout(files, p, cs)
            == if StdoutOnly(cs) == [] then files else files[p := FileText(files, p) + Output(cs)]
  {
    if cs != [] {
      var init, last := cs[..|cs| - 1], cs[|cs| - 1];
      AppendStdoutSpec(files, p, init);
      var f := AppendStdout(files, p, init);
      if !last.Stdout? {
        assert StdoutOnly(cs) == StdoutOnly(init) + [] == StdoutOnly(init);
        assert Output(cs) == Output(init) + "" == Output(init);
        assert AppendStdout(files, p, cs) == f;
      } else {
        assert StdoutOnly(cs) == StdoutOnly(init) + [last];
        assert Output(cs) == Output(init) + last.data;
        if StdoutOnly(init) == [] {
          OutputOfStdout(init);
          assert Output(init) == "";
          assert Output(cs) == last.data;
          assert f == files;
        } else {
          assert f == files[p := FileText(files, p) + Output(init)];
          assert FileText(f, p) + last.data == FileText(files, p) + Output(cs);
          assert files[p := FileText(files, p) + Output(init)][p := FileText(files, p) + Output(cs)]
                 == files[p := FileText(files, p) + Output(cs)];
        }
      }
    }
  }

  /** The three results of a dump: how its promise settles, what it ran, and the files after it. */
  datatype DumpStep = DumpStep(outcome: Outcome, commands: seq<string>, files: map<Path, string>)

  /** `dumpPostgresSQL` / `dumpMySQL`, given what the exec call delivers. */
  function DumpRun(engine: Engine, db: Database, files: map<Path, string>, e: Exec): DumpStep
  {
    if !PasswordsOk(db) then DumpStep(Resolved(None), [], files)
    else
      var written := if e.Stream? then AppendStdout(files, DumpPath(db.id), e.chunks) else files;
      DumpStep(Classify(DumpHandler, e), [DumpCommand(engine, db, Decrypt(db.dbUserPassword).value)], written)
  }

  /**
   * A falsy password returns `null` before any command is issued or file
   * touched; otherwise exactly one command runs, the promise settles as the
   * dump handler decides, and only the dump file can change.
   */
  lemma DumpGuard(engine: Engine, db: Database, files: map<Path, string>, e: Exec)
    ensures var r := DumpRun(engine, db, files, e);
            && (!PasswordsOk(db) ==> r == DumpStep(Resolved(None), [], files))
            && (PasswordsOk(db) ==> |r.commands| == 1 && r.outcome == Classify(DumpHandler, e))
            && (forall q :: q != DumpPath(db.id) ==> (q in r.files <==> q in files))
            && (forall q :: q != DumpPath(db.id) && q in files ==> r.files[q] == files[q])
  {
    if PasswordsOk(db) && e.Stream? {
      AppendStdoutSpec(files, DumpPath(db.id), e.chunks);
    }
  }

  /**
   * After a dump the dump file exists exactly when it existed before or the
   * command was run and printed at least one stdout chunk (a failed dump that
   * printed something leaves a partial file behind).
   */
  lemma DumpFileExists(engine: Engine, db: Database, files: map<Path, string>, e: Exec)
    ensures DumpPath(db.id) in DumpRun(engine, db, files, e).files
            <==> DumpPath(db.id) in files || (PasswordsOk(db) && e.Stream? && StdoutOnly(e.chunks) != [])
  {
    if PasswordsOk(db) && e.Stream? {
      AppendStdoutSpec(files, DumpPath(db.id), e.chunks);
    }
  }

  /** What `migratePostgreSQL` / `migrateMySQL` come to before the v4 database is created. */
  datatype MigrateResult =
    | OtherType                      // returns at once: the `type` column names another engine
    | DumpRejected(reason: Reason)   // the awaited dump rejected, so the migration throws
    | DumpPending                    // the awaited dump never settles
    | CreateOnV4(dumpCalled: bool)   // goes on to create, start and import the v4 database;
                                     // `dumpCalled`: the dump was called (its password guard may still have returned)

  datatype MigrateStep = MigrateStep(result: MigrateResult, commands: seq<string>, files: map<Path, string>)

  /** The part of a database migration this model covers. */
  function MigrateRun(engine: Engine, db: Database, files: map<Path, string>, e: Exec): MigrateStep
  {
    if db.dbType != TypeName(engine) then MigrateStep(OtherType, [], files)
    else if DumpPath(db.id) in files then MigrateStep(CreateOnV4(false), [], files)
    else
      var d := DumpRun(engine, db, files, e);
      var result := match d.outcome
        case Rejected(reason) => DumpRejected(reason)
        case Pending => DumpPending
        case Resolved(_) => CreateOnV4(true);
      MigrateStep(result, d.commands, d.files)
  }

  /**
   * A migration of another engine's database does nothing; a command is run
   * only for the right engine, a missing dump file and truthy passwords.
   */
  lemma MigrateDumpsOnlyWhenMissing(engine: Engine, db: Database, files: map<Path, string>, e: Exec)
    ensures db.dbType != TypeName(engine) ==> MigrateRun(engine, db, files, e) == MigrateStep(OtherType, [], files)
    ensures MigrateRun(engine, db, files, e).commands != []
            <==> db.dbType == TypeName(engine) && DumpPath(db.id) !in files && PasswordsOk(db)
    ensures DumpPath(db.id) in files ==> MigrateRun(engine, db, files, e).files == files
  {
  }

  /** Once a dump printed anything, running the migration again issues no second dump. */
  lemma MigrateDumpsOnce(engine: Engine, db: Database, files: map<Path, string>, e: Exec, again: Exec)
    requires e.Stream? && StdoutOnly(e.chunks) != []
    ensures MigrateRun(engine, db, MigrateRun(engine, db, files, e).files, again).commands == []
  {
    if db.dbType == TypeName(engine) && DumpPath(db.id) !in files {
      DumpFileExists(engine, db, files, e);
    }
  }

  // ---------------------------------------------------------------------------
  // Applications
  // ---------------------------------------------------------------------------

  /** The v3 GitHub app a git source points to. */
  datatype GitHubApp = GitHubApp(name: string)

  datatype GitSource = GitSource(githubApp: Option<GitHubApp>)

  /** A persistent storage: the container path and the host directory behind it. */
  datatype Storage = Storage(path: string, hostPath: Option<string>)

  datatype Application = Application(
    id: string,
    name: string,
    projectId: Option<int>,
    fqdn: Option<string>,
    repository: Option<string>,
    branch: Option<string>,
    buildPack: Option<string>,
    installCommand: Option<string>,
    buildCommand: Option<string>,
    startCommand: Option<string>,
    port: Option<int>,
    gitSource: Option<GitSource>,
    dockerComposeFileLocation: Option<string>,
    dockerComposeFile: Option<string>,
    persistentStorage: seq<Storage>)

  /** A GitHub app record on v4; a JavaScript number is falsy when it is 0. */
  datatype V4GitHub = V4GitHub(id: int)

  /** The `switch` on the build pack. */
  function ApplicationType(buildPack: Option<string>): string
  {
    if buildPack == Some("docker") then "dockerfile"
    else if buildPack == Some("compose") then "dockercompose"
    else "nixpacks"
  }

  /** Each build pack maps to exactly one of the three v4 types, and only the two docker ones escape `nixpacks`. */
  lemma ApplicationTypeCases(buildPack: Option<string>)
    ensures ApplicationType(buildPack) in {"dockerfile", "dockercompose", "nixpacks"}
    ensures ApplicationType(buildPack) == "dockerfile" <==> buildPack == Some("docker")
    ensures ApplicationType(buildPack) == "dockercompose" <==> buildPack == Some("compose")
    ensures ApplicationType(buildPack) == "nixpacks" <==> buildPack != Some("docker") && buildPack != Some("compose")
  {
  }

  /** How the GitHub source of an application is found. */
  datatype SourceLookup =
    | SourceFound(source: V4GitHub) // an app already on v4, or one migrated just now
    | SourceMissing                 // no git source or no GitHub app: logged, and the migration stops
    | SourceCrash                   // the on-demand migration returned nothing, so reading `.id` throws

  /**
   * `existing` is what v4 answers for the app's name; `migrated` is what
   * migrating the v3 GitHub app returns (nothing when its key is missing or
   * does not decrypt).
   */
  function LookupSource(app: Application, existing: Option<V4GitHub>, migrated: Option<V4GitHub>): SourceLookup
  {
    if existing.Some? then SourceFound(existing.value)
    else if app.gitSource.None? || app.gitSource.value.githubApp.None? then SourceMissing
    else if migrated.Some? then SourceFound(migrated.value)
    else SourceCrash
  }

  /** The on-demand migration is consulted only when v4 has no app and the application names one. */
  lemma LookupSourceCases(app: Application, existing: Option<V4GitHub>, migrated: Option<V4GitHub>)
    ensures existing.Some? ==> LookupSource(app, existing, migrated) == SourceFound(existing.value)
    ensures LookupSource(app, existing, migrated) == SourceMissing
            <==> existing.None? && (app.gitSource.None? || app.gitSource.value.githubApp.None?)
    ensures LookupSource(app, existing, migrated) == SourceCrash
            <==> existing.None? && app.gitSource.Some? && app.gitSource.value.githubApp.Some? && migrated.None?
  {
  }

  /**
   * The arguments of `createApplication`, in order; the two constant `null`s
   * after the branch and the one after the source slot are dropped.
   */
  datatype CreateArgs = CreateArgs(
    projectId: Option<int>,
    name: string,
    fqdn: Option<string>,
    repository: Option<string>,
    branch: Option<string>,
    buildPack: string,
    dockerImage: string,
    installCommand: Option<string>,
    buildCommand: Option<string>,
    startCommand: Option<string>,
    port: Option<int>,
    sourceId: Option<int>,
    composeLocation: Option<string>,
    composeFile: Option<string>)

  function CreateApplicationArgs(app: Application, source: V4GitHub): CreateArgs
  {
    var buildPack := ApplicationType(app.buildPack);
    CreateArgs(
      if source.id != 0 then app.projectId else None,
      app.name, app.fqdn, app.repository, app.branch,
      buildPack, "nginx:alpine",
      app.installCommand, app.buildCommand, app.startCommand, app.port,
      if source.id != 0 || !Falsy(app.repository) then Some(0) else None,
      if buildPack != "nixpacks" then app.dockerComposeFileLocation else None,
      if buildPack != "nixpacks" then app.dockerComposeFile else None)
  }

  /**
   * The name, address, repository, branch, commands and port are passed
   * through unchanged, the build pack is the mapped v4 type, the project is
   * passed only for a source with a truthy id, the source slot
   * is 0 exactly when the source id or the repository is truthy, and the
   * compose location and content are passed only for the docker build packs.
   */
  lemma CreateArgsConditions(app: Application, source: V4GitHub)
    ensures var a := CreateApplicationArgs(app, source);
            && (a.projectId.Some? ==> source.id != 0 && a.projectId == app.projectId)
            && (source.id != 0 ==> a.projectId == app.projectId)
            && (a.sourceId == Some(0) <==> source.id != 0 || !Falsy(app.repository))
            && (a.sourceId.Some? ==> a.sourceId == Some(0))
            && ((app.buildPack == Some("docker") || app.buildPack == Some("compose"))
                ==> a.composeLocation == app.dockerComposeFileLocation && a.composeFile == app.dockerComposeFile)
            && (app.buildPack != Some("docker") && app.buildPack != Some("compose")
                ==> a.composeLocation.None? && a.composeFile.None?)
            && a.dockerImage == "nginx:alpine"
            && a.buildPack == ApplicationType(app.buildPack)
            && a.name == app.name && a.fqdn == app.fqdn && a.repository == app.repository && a.branch == app.branch
            && a.installCommand == app.installCommand && a.buildCommand == app.buildCommand
            && a.startCommand == app.startCommand && a.port == app.port
  {
    ApplicationTypeCases(app.buildPack);
  }

  // ---------------------------------------------------------------------------
  // Persistent storages
  // ---------------------------------------------------------------------------

  /** The local directory every storage of an application is downloaded into and uploaded from. */
  function VolumeDir(appId: string): Path
  {
    "data/" + appId + "/volume"
  }

  /** One storage to move: the SFTP path on both hosts, the local volume, and the record's fields. */
  datatype StorageMove = StorageMove(remote: Path, local: Path, mountPath: string, hostPath: string)

  /** The move of one storage with a host path: only the first `~` becomes `/root`. */
  function MoveOf(appId: string, s: Storage): StorageMove
    requires s.hostPath.Some?
  {
    StorageMove(ReplaceFirst(s.hostPath.value, '~', "/root"), VolumeDir(appId), s.path, s.hostPath.value)
  }

  /** `m` is the move of one of the storages `ss` with a truthy host path. */
  ghost predicate MovedFrom(appId: string, ss: seq<Storage>, m: StorageMove)
  {
    exists j :: 0 <= j < |ss| && !Falsy(ss[j].hostPath) && m == MoveOf(appId, ss[j])
  }

  /** A move of a storage in a prefix is a move of a storage in the whole list. */
  lemma MovedFromPrefix(appId: string, ss: seq<Storage>, k: nat, m: StorageMove)
    requires k <= |ss| && MovedFrom(appId, ss[..k], m)
    ensures MovedFrom(appId, ss, m)
  {
    var j :| 0 <= j < k && !Falsy(ss[..k][j].hostPath) && m == MoveOf(appId, ss[..k][j]);
    assert ss[..k][j] == ss[j];
  }

  /** The storages that are moved, in order: those with a truthy host path. */
  function StoragePlan(appId: string, ss: seq<Storage>): (plan: seq<StorageMove>)
    ensures |plan| <= |ss|
    ensures forall i :: 0 <= i < |plan| ==>
              && plan[i].hostPath != ""
              && plan[i].remote == ReplaceFirst(plan[i].hostPath, '~', "/root")
              && plan[i].local == VolumeDir(appId)
    ensures forall i :: 0 <= i < |plan| ==> MovedFrom(appId, ss, plan[i])
  {
    if ss == [] then []
    else
      var init, last := ss[..|ss| - 1], ss[|ss| - 1];
      var before := StoragePlan(appId, init);
      assert forall i :: 0 <= i < |before| ==> MovedFrom(appId, ss, before[i]) by {
        forall i | 0 <= i < |before|
          ensures MovedFrom(appId, ss, before[i])
        {
          MovedFromPrefix(appId, ss, |ss| - 1, before[i]);
        }
      }
      assert !Falsy(last.hostPath) ==> MovedFrom(appId, ss, MoveOf(appId, last));
      before + if !Falsy(last.hostPath) then [MoveOf(appId, last)] else []
  }

  /** How many storages have a truthy host path. */
  function HostPathCount(ss: seq<Storage>): nat
  {
    if ss == [] then 0 else HostPathCount(ss[..|ss| - 1]) + if Falsy(ss[|ss| - 1].hostPath) then 0 else 1
  }

  /** Every storage with a truthy host path is moved, each exactly once, and no other one. */
  lemma {:induction false} StoragePlanCovers(appId: string, ss: seq<Storage>, i: nat)
    requires i < |ss| && !Falsy(ss[i].hostPath)
    ensures MoveOf(appId, ss[i]) in StoragePlan(appId, ss)
  {
    var init := ss[..|ss| - 1];
    if i < |ss| - 1 {
      assert ss[i] == init[i];
      StoragePlanCovers(appId, init, i);
    }
  }

  lemma {:induction false} StoragePlanCount(appId: string, ss: seq<Storage>)
    ensures |StoragePlan(appId, ss)| == HostPathCount(ss)
  {
    if ss != [] {
      StoragePlanCount(appId, ss[..|ss| - 1]);
    }
  }

  /**
   * The SFTP path replaces the first `~` of the host path, and that one only,
   * by `/root`; a host path without `~` is used as it is.  The storage record
   * keeps the host path as written.
   */
  lemma HomeRewrite(appId: string, path: string, before: string, after: string)
    requires '~' !in before
    ensures var m := MoveOf(appId, Storage(path, Some(before + "~" + after)));
            m.remote == before + "/root" + after && m.hostPath == before + "~" + after
    ensures '~' !in after ==> MoveOf(appId, Storage(path, Some(after))).remote == after
  {
    ReplaceFirstSplit(before, '~', after, "/root");
    assert before + "~" + after == before + ['~'] + after;
    if '~' !in after {
      ReplaceFirstAbsent(after, '~', "/root");
    }
  }

  /** A storage record on v4: the application, the mount path, the host path, and "is a directory". */
  datatype StorageRecord = StorageRecord(application: int, mountPath: string, hostPath: string, isDirectory: bool)

  /**
   * The events of moving one storage: a top-level download with a callback,
   * then, from that callback, a top-level upload with a callback.
   */
  function MoveTrace(m: StorageMove, remoteTree: RemoteDir, localTree: LocalDir, dirs: set<Path>): seq<Event>
  {
    DownloadTrace(m.remote, m.local, remoteTree, true, true)
    + UploadTrace(m.local, m.remote, localTree, dirs, true, true).events
  }

  /**
   * Both callbacks of the chain fire exactly once whatever fails along the
   * way: the download's ends the download part, so the upload always starts,
   * and the upload's ends the whole trace, so the storage record is always
   * created.
   */
  lemma MoveChainCompletes(m: StorageMove, remoteTree: RemoteDir, localTree: LocalDir, dirs: set<Path>)
    ensures var down := DownloadTrace(m.remote, m.local, remoteTree, true, true);
            var t := MoveTrace(m, remoteTree, localTree, dirs);
            && down[|down| - 1] == OnFinish
            && multiset(down)[OnFinish] == 1
            && t[|t| - 1] == OnFinish
            && multiset(t)[OnFinish] == 2
  {
    var down := DownloadTrace(m.remote, m.local, remoteTree, true, true);
    var up := UploadTrace(m.local, m.remote, localTree, dirs, true, true).events;
    DownloadTraceOrder(m.remote, m.local, remoteTree, true, true);
    DownloadCallsBackOnce(m.remote, m.local, remoteTree, true, true);
    UploadCallsBackOnce(m.local, m.remote, localTree, dirs, true);
    assert multiset(down + up) == multiset(down) + multiset(up);
  }

  /** The events and the remote directories after moving the storages `plan` one after another. */
  function MovesTrace(plan: seq<StorageMove>, trees: seq<(RemoteDir, LocalDir)>, dirs: set<Path>): (seq<Event>, set<Path>)
    requires |trees| == |plan|
  {
    if plan == [] then ([], dirs)
    else
      var k := |plan| - 1;
      var before := MovesTrace(plan[..k], trees[..k], dirs);
      (before.0 + MoveTrace(plan[k], trees[k].0, trees[k].1, before.1),
       UploadTrace(plan[k].local, plan[k].remote, trees[k].1, before.1, true, true).dirs)
  }

  // ---------------------------------------------------------------------------
  // The client
  // ---------------------------------------------------------------------------

  class V3 {
    /** The migrator's local files (the dump files). */
    var files: map<Path, string>
    /** Every command issued over the v3 SSH connection, in order. */
    var commands: seq<string>
    /** The storage records created on v4, in order. */
    var storageRecords: seq<StorageRecord>
    /** The shared SFTP transfer object. */
    const transfer: FileTransfer

    constructor (existing: map<Path, string>, transfer: FileTransfer)
      ensures files == existing && commands == [] && storageRecords == [] && this.transfer == transfer
    {
      files := existing;
      commands := [];
      storageRecords := [];
      this.transfer := transfer;
    }

    /** `dumpPostgresSQL` / `dumpMySQL`: `e` is what the exec call delivers. */
    method Dump(engine: Engine, db: Database, e: Exec) returns (o: Outcome)
      modifies this
      ensures var d := DumpRun(engine, db, old(files), e);
              o == d.outcome && commands == old(commands) + d.commands && files == d.files
      ensures storageRecords == old(storageRecords)
    {
      var dbPassword := Decrypt(db.dbUserPassword);
      var rootPassword := Decrypt(db.rootUserPassword);
      if Falsy(dbPassword) || Falsy(rootPassword) {
        assert commands == old(commands) + [];
        return Resolved(None);
      }
      commands := commands + [DumpCommand(engine, db, dbPassword.value)];
      if e.Stream? {
        AppendChunks(DumpPath(db.id), e.chunks);
      }
      o := Run(DumpHandler, e);
    }

    /** The `data` listener of a dump: every stdout chunk is appended to the dump file. */
    method AppendChunks(path: Path, chunks: seq<Chunk>)
      modifies this
      ensures files == AppendStdout(old(files), path, chunks)
      ensures commands == old(commands) && storageRecords == old(storageRecords)
    {
      var i := 0;
      while i < |chunks|
        invariant 0 <= i <= |chunks|
        invariant files == AppendStdout(old(files), path, chunks[..i])
        invariant commands == old(commands) && storageRecords == old(storageRecords)
      {
        var chunk := chunks[i];
        if chunk.Stdout? {
          files := files[path := FileText(files, path) + chunk.data];
        }
        assert chunks[..i + 1][..i] == chunks[..i];
        i := i + 1;
      }
      assert chunks[..i] == chunks;
    }

    /** `migratePostgreSQL` / `migrateMySQL` up to the creation of the v4 database. */
    method Migrate(engine: Engine, db: Database, e: Exec) returns (r: MigrateResult)
      modifies this
      ensures var m := MigrateRun(engine, db, old(files), e);
              r == m.result && commands == old(commands) + m.commands && files == m.files
      ensures storageRecords == old(storageRecords)
    {
      if db.dbType != TypeName(engine) {
        return OtherType;
      }
      if DumpPath(db.id) in files {
        return CreateOnV4(false);
      }
      var o := Dump(engine, db, e);
      match o
      case Rejected(reason) => r := DumpRejected(reason);
      case Pending => r := DumpPending;
      case Resolved(_) => r := CreateOnV4(true);
    }

    /**
     * One storage of `migrateApplication`: the download's callback starts the
     * upload, and the upload's callback creates the storage record.
     */
    method MoveStorage(application: int, m: StorageMove, remoteTree: RemoteDir, localTree: LocalDir)
      modifies this, transfer
      ensures transfer.trace == old(transfer.trace) + MoveTrace(m, remoteTree, localTree, old(transfer.remoteDirs))
      ensures transfer.remoteDirs == UploadTrace(m.local, m.remote, localTree, old(transfer.remoteDirs), true, true).dirs
      ensures storageRecords == old(storageRecords) + [StorageRecord(application, m.mountPath, m.hostPath, true)]
      ensures files == old(files) && commands == old(commands)
    {
      transfer.DownloadDirectory(m.remote, m.local, remoteTree, true, true);
      transfer.UploadDirectory(m.local, m.remote, localTree, true, true);
      storageRecords := storageRecords + [StorageRecord(application, m.mountPath, m.hostPath, true)];
    }

    /**
     * The storages of an application, each moved in turn; `trees[i]` is what
     * the i-th move finds remotely and then locally.
     */
    method MoveStorages(application: int, plan: seq<StorageMove>, trees: seq<(RemoteDir, LocalDir)>)
      requires |trees| == |plan|
      modifies this, transfer
      ensures var run := MovesTrace(plan, trees, old(transfer.remoteDirs));
              transfer.trace == old(transfer.trace) + run.0 && transfer.remoteDirs == run.1
      ensures storageRecords == old(storageRecords) + Records(application, plan)
      ensures files == old(files) && commands == old(commands)
    {
      var i := 0;
      while i < |plan|
        invariant 0 <= i <= |plan|
        invariant var run := MovesTrace(plan[..i], trees[..i], old(transfer.remoteDirs));
                  transfer.trace == old(transfer.trace) + run.0 && transfer.remoteDirs == run.1
        invariant storageRecords == old(storageRecords) + Records(application, plan[..i])
        invariant files == old(files) && commands == old(commands)
      {
        ghost var before := MovesTrace(plan[..i], trees[..i], old(transfer.remoteDirs));
        ghost var step := MoveTrace(plan[i], trees[i].0, trees[i].1, before.1);
        MoveStorage(application, plan[i], trees[i].0, trees[i].1);
        MovesStep(application, plan, trees, old(transfer.remoteDirs), i);
        MovesAdvance(plan, trees, old(transfer.remoteDirs), i, old(transfer.trace), transfer.trace, transfer.remoteDirs);
        i := i + 1;
      }
      assert plan[..i] == plan && trees[..i] == trees;
    }

    /**
     * `migrateApplication` from the lookup of the GitHub source onwards:
     * `existing` and `migrated` are the two possible sources, `created` the id
     * v4 gives the new application, `trees` what each storage move finds.
     */
    method MigrateApplication(app: Option<Application>, existing: Option<V4GitHub>, migrated: Option<V4GitHub>,
                              created: int, trees: seq<(RemoteDir, LocalDir)>) returns (r: AppResult)
      requires app.Some? ==> |trees| == |StoragePlan(app.value.id, app.value.persistentStorage)|
      modifies this, transfer
      ensures r == AppRun(app, existing, migrated)
      ensures r.AppCreated? ==>
                var run := MovesTrace(StoragePlan(app.value.id, app.value.persistentStorage), trees, old(transfer.remoteDirs));
                && transfer.trace == old(transfer.trace) + run.0 && transfer.remoteDirs == run.1
                && storageRecords == old(storageRecords) + Records(created, StoragePlan(app.value.id, app.value.persistentStorage))
      ensures !r.AppCreated? ==>
                transfer.trace == old(transfer.trace) && transfer.remoteDirs == old(transfer.remoteDirs)
                && storageRecords == old(storageRecords)
      ensures files == old(files) && commands == old(commands)
    {
      if app.None? {
        return AppNotFound;
      }
      var lookup := LookupSource(app.value, existing, migrated);
      match lookup
      case SourceMissing => r := NoSource;
      case SourceCrash => r := SourceThrows;
      case SourceFound(source) =>
        var args := CreateApplicationArgs(app.value, source);
        var plan := StoragePlan(app.value.id, app.value.persistentStorage);
        MoveStorages(created, plan, trees);
        r := AppCreated(args);
    }
  }

  /** The storage records the moves of `plan` create, in order. */
  function Records(application: int, plan: seq<StorageMove>): (rs: seq<StorageRecord>)
    ensures |rs| == |plan|
    ensures forall i :: 0 <= i < |rs| ==> rs[i] == StorageRecord(application, plan[i].mountPath, plan[i].hostPath, true)
  {
    if plan == [] then []
    else Records(application, plan[..|plan| - 1]) + [StorageRecord(application, plan[|plan| - 1].mountPath, plan[|plan| - 1].hostPath, true)]
  }

  /** One more move appends its events and records to those of the moves before it. */
  lemma MovesStep(application: int, plan: seq<StorageMove>, trees: seq<(RemoteDir, LocalDir)>, dirs: set<Path>, i: nat)
    requires |trees| == |plan| && i < |plan|
    ensures var before := MovesTrace(plan[..i], trees[..i], dirs);
            MovesTrace(plan[..i + 1], trees[..i + 1], dirs)
            == (before.0 + MoveTrace(plan[i], trees[i].0, trees[i].1, before.1),
                UploadTrace(plan[i].local, plan[i].remote, trees[i].1, before.1, true, true).dirs)
    ensures Records(application, plan[..i + 1])
            == Records(application, plan[..i]) + [StorageRecord(application, plan[i].mountPath, plan[i].hostPath, true)]
  {
    assert plan[..i + 1][..i] == plan[..i];
    assert trees[..i + 1][..i] == trees[..i];
  }

  /** The loop step of `MoveStorages`, stated on plain values. */
  lemma MovesAdvance(plan: seq<StorageMove>, trees: seq<(RemoteDir, LocalDir)>, dirs: set<Path>, i: nat,
                     start: seq<Event>, trace: seq<Event>, after: set<Path>)
    requires |trees| == |plan| && i < |plan|
    requires var before := MovesTrace(plan[..i], trees[..i], dirs);
             && trace == start + before.0 + MoveTrace(plan[i], trees[i].0, trees[i].1, before.1)
             && after == UploadTrace(plan[i].local, plan[i].remote, trees[i].1, before.1, true, true).dirs
    ensures var run := MovesTrace(plan[..i + 1], trees[..i + 1], dirs);
            trace == start + run.0 && after == run.1
  {
    var before := MovesTrace(plan[..i], trees[..i], dirs);
    var step := MoveTrace(plan[i], trees[i].0, trees[i].1, before.1);
    MovesStep(0, plan, trees, dirs, i);
    AppendAssociates(start, before.0, step);
  }

  /** How `migrateApplication` ends. */
  datatype AppResult =
    | AppNotFound                // no such application: logged and returned
    | NoSource                   // no GitHub source to attach: logged and returned
    | SourceThrows               // the on-demand source migration returned nothing
    | AppCreated(args: CreateArgs)

  function AppRun(app: Option<Application>, existing: Option<V4GitHub>, migrated: Option<V4GitHub>): AppResult
  {
    if app.None? then AppNotFound
    else match LookupSource(app.value, existing, migrated)
      case SourceMissing => NoSource
      case SourceCrash => SourceThrows
      case SourceFound(source) => AppCreated(CreateApplicationArgs(app.value, source))
  }

  /**
   * An application is created exactly when it exists and a GitHub source is
   * found, on v4 or by migrating its own app, and then with the arguments
   * that source determines; v4's own app always wins over migrating.
   */
  lemma AppCreatedIff(app: Option<Application>, existing: Option<V4GitHub>, migrated: Option<V4GitHub>)
    ensures AppRun(app, existing, migrated).AppCreated?
            <==> && app.Some?
                 && (|| existing.Some?
                     || (app.value.gitSource.Some? && app.value.gitSource.value.githubApp.Some? && migrated.Some?))
    ensures AppRun(app, existing, migrated).AppCreated? ==>
              AppRun(app, existing, migrated).args
              == CreateApplicationArgs(app.value, if existing.Some? then existing.value else migrated.value)
    ensures app.None? ==> AppRun(app, existing, migrated) == AppNotFound
  {
  }

  /**
   * One storage record per storage with a truthy host path, in order, each
   * with the host path as written and flagged as a directory.
   */
  lemma RecordsPerStorage(application: int, appId: string, ss: seq<Storage>)
    ensures |Records(application, StoragePlan(appId, ss))| == HostPathCount(ss)
    ensures forall r :: r in Records(application, StoragePlan(appId, ss)) ==>
              r.application == application && r.isDirectory && r.hostPath != ""
  {
    StoragePlanCount(appId, ss);
  }
}
