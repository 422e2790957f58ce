# coolify-migrator, modelled in Dafny

This project models the core of a tool that migrates a Coolify v3 server to Coolify v4, and proves properties of that model. The core has three parts.

- **The SFTP directory synchroniser** (`FileTransfer`):
  - `downloadDirectory` walks a remote v3 tree depth-first. It creates each local directory, lists the remote one, and hands every file to a download queue without awaiting it.
  - `uploadDirectory` walks a local tree. It creates a remote directory only when it is missing, and awaits one `put` per file, one after another.
  - `uploadFile` puts one file and then calls back.
  - The model records every side effect in order as a trace of events, a field of the `FileTransfer` class. The trees being walked are values whose nodes say which call throws there.
- **The `ssh.exec` outcome handlers**, copied across the v3 client and the proxy installer:
  - stdout chunks are concatenated in arrival order and stderr is only logged;
  - on `close`, exit code 0 resolves and any other code rejects;
  - a channel error rejects in the v3 dumps and leaves the promise pending for ever in the proxy installer.
  - `RemoteExec.Run` is the handler as a loop. `RemoteExec.Classify` is the function it is proved against.
- **The surrounding control flow:**
  - The v3 client's database dumps: the password guard, the dump file fed by the stdout chunks, and dump-if-missing.
  - `migrateApplication`:
    - finding the GitHub source;
    - mapping the build pack to an application type;
    - the conditional arguments of `createApplication`;
    - filtering storages by host path and rewriting `~` to `/root`;
    - the download-then-upload-then-record chain for each storage.
  - The proxy installer:
    - reading the v4 keys;
    - stopping when the proxy directory already exists;
    - looking up the database container;
    - writing its id into the two templates;
    - uploading the proxy directory;
    - starting it.

Modules, one per file:

- `JsString` (`js_string.dfy`): the JavaScript string operations the core relies on:
  - `trim`, with the ECMAScript white-space set;
  - a global regular-expression `replace` of literal text;
  - the first-occurrence string `replace`;
  - a separator-only `path.join`;
  - falsiness of an optional string.
- `RemoteExec` (`remote_exec.dfy`): the exec outcome handler.
- `Transfer` (`transfer.dfy`): class `FileTransfer` and the trace functions that specify it.
- `V3Client` (`v3_client.dfy`): class `V3` for the dumps, the migrations and the storage moves, plus the pure mappings of `migrateApplication`.
- `ProxyV4` (`proxy_v4.dfy`): class `Proxy` and the `init` sequence.

Inputs the program gets from I/O are parameters of the model:

- what an exec call delivers: an `Exec` value holding the chunks and the `close` arguments;
- the remote and local trees;
- the answer to `folderExistsOnV4`;
- what v4 answers to `getGitHubApp`;
- what migrating a GitHub app returns;
- the id v4 gives a created application;
- what deciphering a stored secret yields.

The code does several things that look surprising. The model keeps them as written:

- In `getV4Info`, an empty app key returns from `getV4Info` alone, and `init` goes on.
- With exit code 0, the dumps resolve `null`, exactly as the password guard does.
- Nested `uploadDirectory` calls omit `first`, so every directory waits on the queue.
- `start` changes into `/root/v4-migrate`, while `install` uploads to `/root/v4-proxy`.
- Every storage of an application is downloaded into the same local `data/<id>/volume` directory.
- A failed dump that printed something leaves a partial dump file behind. The dump-if-missing check then never tries that dump again.

## Model

| member | source | states |
|---|---|---|
| JsString.LastSlash | src/FileTransfer.ts:82-83 | the index found holds a `/` with no `/` after it, or is -1 when the path has none |
| JsString.LastSlashAt | src/FileTransfer.ts:82-83 | a `/` followed by no other `/` is the one `LastSlash` finds |
| JsString.JoinSplits | src/FileTransfer.ts:82-83 | joining a directory and an entry name without `/` and splitting the result at its last `/` gives back the directory and the name |
| JsString.Trim | src/proxy-v4.ts:190 | the trimmed text is no longer than the input and neither starts nor ends with white space |
| JsString.TrimSplits | src/proxy-v4.ts:239 | the trimmed text sits in the input right after the leading white space, and everything outside it is white space |
| JsString.TrimIdempotent | src/proxy-v4.ts:275 | trimming twice gives the same text as trimming once |
| JsString.ReplaceAll | src/proxy-v4.ts:92-95 | the global `replace` of literal text, scanning left to right and resuming after each match; `ReplaceAllFree`, `ReplaceAllPiece` and `ReplaceAllTemplate` prove what it does |
| JsString.ReplaceAllFree | src/proxy-v4.ts:107-110 | text without a match passes through the global replace unchanged |
| JsString.ReplaceAllPiece | src/proxy-v4.ts:92-95 | when the pattern cannot overlap itself, a match-free piece followed by the pattern keeps the piece, replaces the pattern, and resumes scanning after it |
| JsString.ReplaceAllTemplate | src/proxy-v4.ts:92-95 | when the pattern cannot overlap itself, match-free parts joined by the pattern become the same parts joined by the replacement |
| JsString.ReplaceFirst | src/v3/client.ts:407-410 | the string `replace` of one character, which replaces its first occurrence only; `ReplaceFirstAbsent` and `ReplaceFirstSplit` prove what it does |
| JsString.ReplaceFirstAbsent | src/v3/client.ts:407-410 | a string without the character is unchanged by the first-occurrence replace |
| JsString.ReplaceFirstSplit | src/v3/client.ts:407-410 | only the first occurrence is replaced; the text after it, later occurrences included, is kept |
| RemoteExec.Classify | src/proxy-v4.ts:188-199 | how a handler settles on an exec: resolve on close with code 0, reject on any other code, and on a channel error reject or hang by handler; `Run` is proved against it, and `ResolvesIffExitZero`, `RejectsWithCode`, `ChannelErrorOutcome`, `StderrIgnored` and `ChunkingIrrelevant` prove its cases |
| RemoteExec.Run | src/v3/client.ts:86-133 | the loop over the chunks settles exactly as `Classify` decides; its invariant keeps the accumulator equal to the stdout output so far |
| RemoteExec.OutputAppend | src/v3/client.ts:99-100 | the output of two runs of chunks is the concatenation of their outputs |
| RemoteExec.StdoutOnly | src/proxy-v4.ts:184-187 | only stdout chunks are kept |
| RemoteExec.OutputOfStdout | src/proxy-v4.ts:184-187 | the output is exactly the stdout chunks' texts glued in arrival order |
| RemoteExec.ConcatAppend | src/proxy-v4.ts:184-187 | gluing two runs of chunks is the concatenation of gluing each |
| RemoteExec.ResolvesIffExitZero | src/proxy-v4.ts:188-191 | a promise resolves iff the stream closes with code 0; the getters resolve with the trimmed output and the other handlers with `null` |
| RemoteExec.RejectsWithCode | src/v3/client.ts:118-126 | any code other than 0, `null` included, rejects with that code whatever was printed; the dump handler wraps the code in an error |
| RemoteExec.ChannelErrorOutcome | src/proxy-v4.ts:177-180 | a channel error rejects iff the handler is the dump handler, and otherwise never settles; an unclosed stream never settles |
| RemoteExec.StderrIgnored | src/v3/client.ts:128-130 | a stderr chunk inserted anywhere changes neither the output nor the outcome |
| RemoteExec.StderrAddsNothing | src/proxy-v4.ts:201-203 | a stderr chunk between two runs of chunks adds nothing to the output |
| RemoteExec.ValueIsTrimmed | src/proxy-v4.ts:239 | a getter's resolved value is present, starts and ends with no white space, and is unchanged by a second trim |
| RemoteExec.ChunkingIrrelevant | src/proxy-v4.ts:233-236 | two streams with the same stdout text and the same close settle the same way |
| Transfer.Ancestry | src/FileTransfer.ts:123 | what a recursive `mkdir` makes sure of: the directory and every prefix that ends right before a `/` |
| Transfer.EnsureRemote | src/FileTransfer.ts:121-124 | a throwing `exists` aborts with no event; otherwise an existing directory produces no event, and a missing one produces one `mkdir`, which either aborts and leaves the set unchanged or adds the directory with all its ancestors |
| Transfer.DownloadWalk | src/FileTransfer.ts:74-104 | the events of one `downloadDirectory` call without its final wait: local mkdir, listing, then the entries in order; each error is logged and ends the walk; `DownloadTraceOrder`, `FailedWalk` and `DownloadFailureContained` prove its shape |
| Transfer.DownloadTrace | src/FileTransfer.ts:68-111 | a whole `downloadDirectory` call: the walk, then for a top-level call the queue wait, the log and the callback; `DownloadDirectory` is proved against it, and `DownloadTasksAreReachedFiles`, `DownloadCreatesVisitedDirs` and `DownloadCallsBackOnce` prove what it does |
| Transfer.UploadBody | src/FileTransfer.ts:119-146 | the `try` block of `uploadDirectory` and its `catch`: ensure the remote directory, read the local one, then the entries until one throws; `UploadTry` is proved against it, and `UploadBodyPuts`, `UploadExistsFails` and `UploadKeepsClosed` prove what it does |
| Transfer.UploadEntries | src/FileTransfer.ts:129-143 | the loop over a local listing, stopping at the first entry that throws; `UploadListing` is proved against it, and `UploadAbortSkipsRest` and `UploadEntriesPuts` prove what it does |
| Transfer.UploadTrace | src/FileTransfer.ts:113-153 | a whole `uploadDirectory` call: the body, then for a top-level call the queue wait, the log and the callback; `UploadDirectory` is proved against it, and `UploadPutsInOrder` and `UploadCallsBackOnce` prove what it does |
| Transfer.UploadFileTrace | src/FileTransfer.ts:155-168 | `uploadFile`: one `put`, its error log when it throws, and the callback; `UploadFile` is proved against it and `UploadFileCallsBackOnce` proves its order |
| Transfer.FileTransfer.DownloadDirectory | src/FileTransfer.ts:68-111 | the trace grows by exactly the download trace of the tree, and the remote directory set is unchanged |
| Transfer.FileTransfer.DownloadListing | src/FileTransfer.ts:81-101 | the loop appends exactly the events of the listed entries, in order |
| Transfer.FileTransfer.EnsureRemoteDir | src/FileTransfer.ts:121-124 | the trace and the directory set change as `EnsureRemote` says; `ok` iff the step did not throw |
| Transfer.FileTransfer.UploadDirectory | src/FileTransfer.ts:113-153 | the trace grows by the upload trace of the tree, and the directory set becomes that trace's set |
| Transfer.FileTransfer.UploadTry | src/FileTransfer.ts:119-146 | the try block and its catch append the upload-body events and update the directory set accordingly |
| Transfer.FileTransfer.UploadListing | src/FileTransfer.ts:129-143 | the loop appends the entries' events up to the first throwing entry; `failed` iff one threw |
| Transfer.FileTransfer.UploadFile | src/FileTransfer.ts:155-168 | the trace grows by the `put`, its error log when it throws, and the callback |
| Transfer.TasksAppend | src/FileTransfer.ts:89-99 | the tasks of two traces in sequence are the tasks of the first followed by those of the second |
| Transfer.LocalMkdirsAppend | src/FileTransfer.ts:76 | the local directories of two traces in sequence are those of the first followed by those of the second |
| Transfer.PairsUnder | src/FileTransfer.ts:82-83 | source and destination paths below a subdirectory are those below the joined source and the joined destination |
| Transfer.DownloadTasksAreReachedFiles | src/FileTransfer.ts:81-100 | the queue tasks are exactly one pair per reachable file, in depth-first listing order, joining the same names to the remote and the local root; directories never become tasks |
| Transfer.DownloadEntriesTasks | src/FileTransfer.ts:81-100 | the same for one listing: its tasks are the pairs of the files reached through its entries |
| Transfer.DownloadCreatesVisitedDirs | src/FileTransfer.ts:76 | the local directories created are exactly the visited directories' counterparts, one each, in depth-first order |
| Transfer.DownloadEntriesMkdirs | src/FileTransfer.ts:85-86 | the local directories a listing creates are those of its visited subdirectories, in order |
| Transfer.DownloadCounts | src/FileTransfer.ts:81-100 | when no mkdir or list throws, there is one task per file of the tree and one local directory per directory of the tree |
| Transfer.DownloadEntriesAppend | src/FileTransfer.ts:81-101 | walking a listing split in two is walking the two halves one after the other |
| Transfer.DownloadFailureContained | src/FileTransfer.ts:74-104 | a subdirectory whose mkdir or list throws contributes only its attempt and its error log; the siblings before and after it are walked as without it |
| Transfer.FailedWalk | src/FileTransfer.ts:74-104 | a walk whose mkdir throws logs right after it; one whose listing throws logs after the listing |
| Transfer.DownloadTraceOrder | src/FileTransfer.ts:74-110 | the local directory is created first, the remote listing comes second, and a top-level call with a callback calls it last |
| Transfer.DownloadCallsBackOnce | src/FileTransfer.ts:106-110 | a top-level call waits on the queue exactly once and calls a passed callback exactly once; a nested call does neither |
| Transfer.DownloadWalkQuiet | src/FileTransfer.ts:86 | no walk, nested calls included, waits on the queue or calls back |
| Transfer.UploadAbortSkipsRest | src/FileTransfer.ts:129-146 | once an entry has thrown, later entries of that listing leave no trace and create no directory |
| Transfer.UploadEntriesAppendSub | src/FileTransfer.ts:135-137 | a nested directory never aborts its parent's loop; the parent carries on with its state after the nested call |
| Transfer.UploadPutsInOrder | src/FileTransfer.ts:127-143 | when nothing throws, the upload awaits one `put` per file of the local tree, in depth-first listing order, from the local to the remote path |
| Transfer.UploadBodyPuts | src/FileTransfer.ts:119-146 | when nothing throws, the try block does not abort and its puts are the file pairs of the tree |
| Transfer.UploadEntriesPuts | src/FileTransfer.ts:129-143 | when no entry throws, the loop does not abort and its puts are the file pairs of its entries |
| Transfer.UploadFilePuts | src/FileTransfer.ts:138-141 | a file entry that does not throw awaits exactly its own `put` |
| Transfer.UploadSubPuts | src/FileTransfer.ts:135-137 | a subdirectory entry awaits its nested upload's puts, below its own name |
| Transfer.EnsureRemoteIdempotent | src/FileTransfer.ts:121-124 | after a successful ensure step a second one does nothing, and an existing directory is never created |
| Transfer.EnsureRemoteKeepsClosed | src/FileTransfer.ts:121-124 | an ensure step, whatever throws, keeps the remote side closed under ancestors |
| Transfer.EnsureRemoteAncestor | src/FileTransfer.ts:123 | after a successful ensure step, ensuring any ancestor of that directory creates nothing |
| Transfer.UploadKeepsClosed | src/FileTransfer.ts:119-146 | a whole upload, nested directories included and wherever it stops, keeps the remote side closed under ancestors |
| Transfer.UploadEntriesKeepClosed | src/FileTransfer.ts:129-143 | the same for the loop over one listing |
| Transfer.UploadExistsFails | src/FileTransfer.ts:119-146 | a throwing `exists` leaves only the error log of the `catch` and creates no directory |
| Transfer.UploadCallsBackOnce | src/FileTransfer.ts:148-152 | a top-level upload calls the passed callback exactly once, as its last event, whatever failed |
| Transfer.UploadBodyQuiet | src/FileTransfer.ts:137 | no try block, nested uploads included, calls back |
| Transfer.UploadIdleWaits | src/FileTransfer.ts:137 | nested uploads default `first` to true: when nothing throws, the try block waits on the queue once per nested directory |
| Transfer.UploadFileCallsBackOnce | src/FileTransfer.ts:155-168 | `uploadFile` starts with the `put` and calls back exactly once, last, whether the `put` throws or not |
| Transfer.ThreeFileScenario | src/FileTransfer.ts:81-100 | for a tree holding `a/file1.txt`, `a/b/file2.txt` and `c/file3.txt`, the download queues the three files in that order and creates the root, `a`, `a/b` and `c` locally |
| V3Client.Decrypt | src/v3/utils.ts:12-31 | a falsy column (`null` or `""`) gives `undefined` (`None`); otherwise the deciphered text, or the column itself when deciphering throws; `DecryptFalsy` proves its cases |
| V3Client.DecryptFalsy | src/v3/utils.ts:12-31 | a decrypted secret is falsy iff the column is falsy or deciphers to the empty text; otherwise it is the deciphered text or the column itself |
| V3Client.DumpRun | src/v3/client.ts:77-134 | a dump: the password guard, then one command whose stdout is appended to the dump file and whose close decides the outcome; `V3.Dump` is proved against it, and `DumpGuard` and `DumpFileExists` prove what it does |
| V3Client.AppendStdoutSpec | src/v3/client.ts:99-108 | the dump file receives the whole stdout output in order, appended to what it held; a stream without stdout changes no file |
| V3Client.DumpGuard | src/v3/client.ts:77-93 | a falsy password resolves `null` with no command and no file change; otherwise exactly one command runs, the dump handler decides the outcome, and only the dump file can change |
| V3Client.DumpFileExists | src/v3/client.ts:98-108 | after a dump the file exists iff it existed before, or the command ran and printed stdout |
| V3Client.MigrateRun | src/v3/client.ts:148-158 | a database migration up to the v4 creation: other engines stop, an existing dump file skips the dump, otherwise the dump's outcome decides; `V3.Migrate` is proved against it, and `MigrateDumpsOnlyWhenMissing` and `MigrateDumpsOnce` prove what it does |
| V3Client.MigrateDumpsOnlyWhenMissing | src/v3/client.ts:148-158 | another engine's database does nothing; a dump command runs iff the type matches, the file is missing and the passwords are truthy; an existing file is kept |
| V3Client.MigrateDumpsOnce | src/v3/client.ts:268-278 | once a dump printed anything, running the migration again issues no command |
| V3Client.ApplicationType | src/v3/client.ts:345-357 | the `switch` on the build pack; `ApplicationTypeCases` proves its cases |
| V3Client.ApplicationTypeCases | src/v3/client.ts:345-357 | `docker` maps to `dockerfile` and `compose` to `dockercompose`, each iff; every other build pack maps to `nixpacks` |
| V3Client.LookupSource | src/v3/client.ts:326-341 | the source lookup: v4's app, else none when the application names no GitHub app, else the on-demand migration's app or a crash; `LookupSourceCases` proves its cases |
| V3Client.LookupSourceCases | src/v3/client.ts:326-341 | v4's app is used when it exists; the migration stops iff there is none and the application names no GitHub app; it crashes iff the on-demand migration then returns nothing |
| V3Client.CreateApplicationArgs | src/v3/client.ts:359-379 | the arguments of `createApplication`; `CreateArgsConditions` proves what each one is |
| V3Client.CreateArgsConditions | src/v3/client.ts:359-379 | the name, address, repository, branch, install, build and start commands and port are passed through; the type is the mapped build pack; the project is passed iff the source id is truthy; the source slot is 0 iff the source id or the repository is truthy, and null otherwise; the compose fields are passed only for the docker build packs; the image is `nginx:alpine` |
| V3Client.AppRun | src/v3/client.ts:311-379 | how `migrateApplication` ends: no application, no source, a crashing lookup, or a creation with the mapped arguments; `V3.MigrateApplication` is proved against it and `AppCreatedIff` proves its cases |
| V3Client.AppCreatedIff | src/v3/client.ts:311-379 | an application is created iff it exists and a source is found, with the arguments that source determines; a missing application stops first |
| V3Client.StoragePlan | src/v3/client.ts:403-415 | every planned move comes from a storage with a truthy host path; its remote path replaces the first `~` by `/root`; its local directory is the application's volume |
| V3Client.StoragePlanCovers | src/v3/client.ts:404-405 | every storage with a truthy host path is moved |
| V3Client.StoragePlanCount | src/v3/client.ts:404-405 | as many moves as storages with a truthy host path |
| V3Client.HomeRewrite | src/v3/client.ts:407-410 | the SFTP path replaces only the first `~` by `/root` and the record keeps the host path as written; a path without `~` is used as it is |
| V3Client.MoveTrace | src/v3/client.ts:412-445 | one storage move: a top-level download with a callback, then from it a top-level upload with a callback; `V3.MoveStorage` is proved against it and `MoveChainCompletes` proves the chain completes |
| V3Client.MoveChainCompletes | src/v3/client.ts:412-445 | the download's callback fires once and ends the download part, so the upload always starts; the upload's callback ends the chain, so the record is always created |
| V3Client.Records | src/v3/client.ts:423-429 | one record per move, in order, with the application, the mount path, the host path as written, and a directory flag |
| V3Client.MovesStep | src/v3/client.ts:403-447 | one more storage appends its chain's events and its record to those of the storages before it |
| V3Client.RecordsPerStorage | src/v3/client.ts:403-429 | one record per storage with a truthy host path, each for that application, a directory, with a non-empty host path |
| V3Client.V3.Dump | src/v3/client.ts:194-254 | the outcome, the issued commands and the files become those of the dump run |
| V3Client.V3.AppendChunks | src/v3/client.ts:218-229 | the files become those with every stdout chunk appended to the dump file |
| V3Client.V3.Migrate | src/v3/client.ts:268-278 | the result, the commands and the files become those of the migration run |
| V3Client.V3.MoveStorage | src/v3/client.ts:406-446 | the transfer trace grows by the download-then-upload chain, and exactly one storage record is added |
| V3Client.V3.MoveStorages | src/v3/client.ts:403-447 | the storages are moved one after another; the trace and the directory set follow, and the records are those of the plan |
| V3Client.V3.MigrateApplication | src/v3/client.ts:311-448 | the result is the application run; only a created application moves storages and adds records |
| ProxyV4.PlaceholderBorderFree | src/proxy-v4.ts:92-95 | matches of `container_id` cannot overlap |
| ProxyV4.Substitute | src/proxy-v4.ts:92-95 | writing the container id into a template with the global `replace` of `container_id`; `SubstituteEvery` and `SubstitutePlain` prove what it does |
| ProxyV4.SubstituteEvery | src/proxy-v4.ts:92-95 | every occurrence of `container_id` becomes the id and all other text is kept |
| ProxyV4.SubstitutePlain | src/proxy-v4.ts:107-110 | a template without the placeholder is written back unchanged |
| ProxyV4.Initialization | src/proxy-v4.ts:68-84 | what `init` does on a given v4 host: the steps it takes, how it ends, and the id it writes; `Proxy.Init` is proved against it, and `InitInOrder`, `InitStartsIff`, `InitStopsWithoutContainer` and `InitHangsOnChannelError` prove what it does |
| ProxyV4.InitInOrder | src/proxy-v4.ts:68-84 | what `init` did is always a prefix of: key lookup(s), existence check, container lookup, setup, install, start |
| ProxyV4.InitStopsWithoutContainer | src/proxy-v4.ts:74-77 | the upload happens iff a non-empty container id was written into the templates; an empty id ends `init` right after the lookup |
| ProxyV4.LookupSteps | src/proxy-v4.ts:74-83 | from the container lookup on, `init` either stops at once or takes setup, install and start, in that order |
| ProxyV4.InitStartsIff | src/proxy-v4.ts:68-84 | the proxy is started iff the key lookups settle without stopping, it is not yet installed, the id is non-empty and `start` exits with 0 |
| ProxyV4.InitHangsOnChannelError | src/proxy-v4.ts:225-229 | a channel error on the first command leaves `init` waiting for ever after that command |
| ProxyV4.InitUsesTrimmedId | src/proxy-v4.ts:188-191 | the id written into the templates is the trimmed stdout of the container lookup |
| ProxyV4.InstallResolves | src/proxy-v4.ts:121-133 | the upload's callback always fires, exactly once and last, so `install` always resolves |
| ProxyV4.Proxy.Exec | src/proxy-v4.ts:172-207 | one command is logged and the promise settles as the value or start handler decides |
| ProxyV4.Proxy.GetV3Decrypt | src/proxy-v4.ts:294-329 | one command on the v3 connection; the key is the trimmed output on exit 0 |
| ProxyV4.Proxy.GetV4Info | src/proxy-v4.ts:209-221 | the password is read only after a truthy key; `init` stops only when a lookup rejects or hangs |
| ProxyV4.Proxy.Setup | src/proxy-v4.ts:86-119 | both templates become their placeholder-substituted versions |
| ProxyV4.Proxy.Install | src/proxy-v4.ts:121-133 | the proxy directory is uploaded to `/root/v4-proxy` and `resolved` is true |
| ProxyV4.Proxy.Deploy | src/proxy-v4.ts:79-83 | both templates are substituted with the id, the proxy directory is uploaded, `start` runs, and the result is how `start` settles |
| ProxyV4.Proxy.Init | src/proxy-v4.ts:68-84 | the result and the steps taken are those of `Initialization`; the templates change and the upload happens only when setup ran |

## Left out

- The SSH and SFTP connection setup and the `ready`/`error` wiring of every constructor are network I/O. The `V3`, `FileTransfer` and `Proxy` constructors only set the model's fields.
- The `p-queue` scheduler is left out: concurrency, priorities, idle-wait timing, and running the queued `get` calls. A queued download is an `Enqueue` event, and `onIdle` is an `AwaitIdle` event.
- `JsString.Join` leaves out `path.join` normalisation. It joins with one `/`. That is exact only when the directory has no trailing `/` and no `.`, `..` or `//` segments, and the name has no `/` or `..`. For example, `~/data/` rewritten to `/root/data/` joins to `/root/data//x` where `path.join` gives `/root/data/x`. The `${__dirname}/../v4-proxy` source of the proxy upload is the plain `v4-proxy` in the model.
- `fs.mkdir` with `recursive` is one `MkdirLocal` event that either succeeds or throws. The `exists` call is a lookup in a set of remote directories, closed under ancestors as long as it starts so.
- The AES-256-CTR deciphering in `decrypt` is left out. Each secret carries what deciphering yields, or `None` when parsing or deciphering throws.
- The v4 inserts are left out: `createPostgreSQL`, `createMySQL` and the volume, start and import calls after a dump, `createApplicationSettings`, the application secrets, `createApplicationStorage`'s database row, and `getGitHubApp`. They are database plumbing that is not defined in the files modelled. Their answers are parameters, and a storage record is an entry of `V3.storageRecords`.
- `migrateGitHubSource` is a parameter (its result), not a modelled operation.
- The `Promise.all` fan-out over databases, secrets and storages is modelled sequentially, one after another. Interleavings of concurrent storage moves, which all share one local volume directory, are not modelled.
- `sleep`, `process.exit` and all console logging are left out. This includes the `V4_SECRET_KEY`/`V4_DATABASE` lines of `getV4Info` and the `V3_SECRET_KEY` line after `getV3Decrypt`. The exit in `checkExists` is the `AlreadyInstalled` result.
- `folderExistsOnV4` is not part of this model. Its answer is the `proxyInstalled` field of `V4Host`.
- `setup` reads and writes two local files. The model keeps the two texts as fields, and read or write errors are not modelled.
- `ProxyV4.Substitute` and `JsString.ReplaceAll` do not model `$` patterns in the replacement text. A container id never contains `$`.
- Strings are sequences of Unicode scalar values, not UTF-16 code units. Streams deliver text chunks, not bytes.
- `RemoteExec.Classify`: the rejection of a dump carries only the exit code, not the error message text.
- A rejected promise means `init` or a migration rejects. The unhandled-rejection behaviour of the runtime is not modelled.
- The download's completion log and the upload's completion log are events. The per-file success logs are not.
- Each `uploadDirectory` call is split into `UploadDirectory`, `UploadTry` and `UploadListing`, and each `downloadDirectory` call into `DownloadDirectory` and `DownloadListing`. Together they are the one recursive function of the source.
- The local tree a storage move uploads is a parameter, not derived from the files the download queued, because the queued downloads are not run.
