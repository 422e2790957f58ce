/**
 * The directory synchroniser of `src/FileTransfer.ts`: a depth-first download
 * walk that submits one queue task per file, a strictly serial upload walk,
 * and a single-file upload, all over in-memory trees.
 *
 * Every side effect the source performs on the outside world is recorded as an
 * `Event` appended to the `trace` of a `FileTransfer` object. Each failure the
 * source catches is a flag on the tree node where it happens; the queue only
 * records what was submitted to it (its execution of `get` is not modelled).
 */
module Transfer {
  import opened JsString

  // ---------------------------------------------------------------------------
  // Data model
  // ---------------------------------------------------------------------------

  /**
   * One remote directory being downloaded into its local counterpart.
   * `localMkdirFails`: `fs.mkdir(localDir)` throws; `listFails`: `list(remoteDir)` throws.
   */
  datatype RemoteDir = RemoteDir(localMkdirFails: bool, listFails: bool, entries: seq<RemoteEntry>)

  /** A listed remote entry: type `"d"` is a directory, every other type is a file. */
  datatype RemoteEntry =
    | RemoteFile(name: string)
    | RemoteSub(name: string, dir: RemoteDir)

  /**
   * One local directory being uploaded into its remote counterpart.
   * `remoteExistsFails`: `exists(remoteDir)` throws; `remoteMkdirFails`: `mkdir(remoteDir, true)` throws;
   * `readdirFails`: `readdir(localDir)` throws.
   */
  datatype LocalDir = LocalDir(remoteExistsFails: bool, remoteMkdirFails: bool, readdirFails: bool, entries: seq<LocalEntry>)

  /** A local directory entry; `statFails` and `putFails` say which awaited call throws. */
  datatype LocalEntry =
    | LocalFile(name: string, statFails: bool, putFails: bool)
    | LocalSub(name: string, statFails: bool, dir: LocalDir)

  /** The side effects of the synchroniser, in the order they are issued. */
  datatype Event =
    | MkdirLocal(path: Path)                  // fs.mkdir(localDir, { recursive: true })
    | ListRemote(path: Path)                  // v3Client.list(remoteDir)
    | Enqueue(src: Path, dst: Path)           // queue.add(get(src, dst)), not awaited
    | DownloadFailed(remoteDir: Path)         // "Failed to download directory"
    | MkdirRemote(path: Path)                 // v4Client.mkdir(remoteDir, true)
    | ReadLocal(path: Path)                   // fs.readdir(localDir)
    | Put(src: Path, dst: Path)               // awaited v4Client.put(src, dst)
    | UploadFailed(localDir: Path, remoteDir: Path)
    | UploadFileFailed(src: Path, dst: Path)
    | AwaitIdle                               // await queue.onIdle()
    | DownloadFinished(remoteDir: Path)
    | UploadFinished(localDir: Path, remoteDir: Path)
    | OnFinish                                // the caller's completion callback

  // ---------------------------------------------------------------------------
  // Download: specification
  // ---------------------------------------------------------------------------

  /** The events of the `try` block of one `downloadDirectory` call and its `catch`. */
  function DownloadWalk(remoteDir: Path, localDir: Path, d: RemoteDir): seq<Event>
    decreases d
  {
    var body :=
      if d.localMkdirFails then [DownloadFailed(remoteDir)]
      else if d.listFails then [ListRemote(remoteDir), DownloadFailed(remoteDir)]
      else [ListRemote(remoteDir)] + DownloadEntries(remoteDir, localDir, d.entries);
    [MkdirLocal(localDir)] + body
  }

  /** The events of the `for` loop over a listing, one entry after another. */
  function DownloadEntries(remoteDir: Path, localDir: Path, es: seq<RemoteEntry>): seq<Event>
    decreases es
  {
    if es == [] then []
    else DownloadEntries(remoteDir, localDir, es[..|es| - 1]) + DownloadEntry(remoteDir, localDir, es[|es| - 1])
  }

  /** One loop iteration: a directory is walked, anything else becomes a queue task. */
  function DownloadEntry(remoteDir: Path, localDir: Path, e: RemoteEntry): seq<Event>
    decreases e
  {
    match e
    case RemoteFile(n) => [Enqueue(Join(remoteDir, n), Join(localDir, n))]
    case RemoteSub(n, sub) => DownloadWalk(Join(remoteDir, n), Join(localDir, n), sub)
  }

  /** The events of a whole `downloadDirectory(remoteDir, localDir, first, onFinish)` call. */
  function DownloadTrace(remoteDir: Path, localDir: Path, d: RemoteDir, first: bool, onFinish: bool): seq<Event>
  {
    DownloadWalk(remoteDir, localDir, d) +
    if first then [AwaitIdle, DownloadFinished(remoteDir)] + (if onFinish then [OnFinish] else [])
    else []
  }

  // ---------------------------------------------------------------------------
  // Upload: specification
  // ---------------------------------------------------------------------------

  /** Events so far, remote directories now present, and whether the `try` block was abandoned. */
  datatype Progress = Progress(events: seq<Event>, dirs: set<Path>, aborted: bool)

  /**
   * The directories a recursive `mkdir(dir, true)` makes sure of: `dir` itself
   * and every ancestor, i.e. every prefix that ends right before a `/`.
   */
  function Ancestry(dir: Path): (r: set<Path>)
    ensures dir in r
    ensures forall k :: 0 < k < |dir| && dir[k] == '/' ==> dir[..k] in r
  {
    {dir} + set k | 0 < k < |dir| && dir[k] == '/' :: dir[..k]
  }

  /** `if (!await exists(remoteDir)) await mkdir(remoteDir, true)`. */
  function EnsureRemote(remoteDir: Path, existsFails: bool, mkdirFails: bool, dirs: set<Path>): (p: Progress)
    ensures p.aborted <==> existsFails || (remoteDir !in dirs && mkdirFails)
    ensures !existsFails && remoteDir in dirs ==> p == Progress([], dirs, false)
    ensures !p.aborted && remoteDir !in dirs ==> p.dirs == dirs + Ancestry(remoteDir)
    ensures !p.aborted ==> remoteDir in p.dirs
    ensures p.aborted ==> p.dirs == dirs
    ensures p.events == if existsFails || remoteDir in dirs then [] else [MkdirRemote(remoteDir)]
  {
    if existsFails then Progress([], dirs, true)
    else if remoteDir in dirs then Progress([], dirs, false)
    else Progress([MkdirRemote(remoteDir)], if mkdirFails then dirs else dirs + Ancestry(remoteDir), mkdirFails)
  }

  /**
   * The events of the `try` block of one `uploadDirectory` call and of its
   * `catch`, and the remote directories present afterwards; `aborted` says
   * whether the `catch` ran.
   */
  function UploadBody(localDir: Path, remoteDir: Path, d: LocalDir, dirs: set<Path>): Progress
    decreases d
  {
    var ensure := EnsureRemote(remoteDir, d.remoteExistsFails, d.remoteMkdirFails, dirs);
    if ensure.aborted then
      Progress(ensure.events + [UploadFailed(localDir, remoteDir)], ensure.dirs, true)
    else if d.readdirFails then
      Progress(ensure.events + [ReadLocal(localDir), UploadFailed(localDir, remoteDir)], ensure.dirs, true)
    else
      var loop := UploadEntries(localDir, remoteDir, d.entries, ensure.dirs);
      var caught := if loop.aborted then [UploadFailed(localDir, remoteDir)] else [];
      Progress(ensure.events + [ReadLocal(localDir)] + loop.events + caught, loop.dirs, loop.aborted)
  }

  /** After the `try`/`catch`: only `first` waits on the queue and logs, only a passed callback is called. */
  function UploadFinish(localDir: Path, remoteDir: Path, first: bool, onFinish: bool): seq<Event>
  {
    if first then [AwaitIdle, UploadFinished(localDir, remoteDir)] + (if onFinish then [OnFinish] else [])
    else []
  }

  /**
   * The events of a whole `uploadDirectory(localDir, remoteDir, first, onFinish)`
   * call and the remote directories present afterwards (`aborted` is false: the
   * call catches its own errors).
   */
  function UploadTrace(localDir: Path, remoteDir: Path, d: LocalDir, dirs: set<Path>, first: bool, onFinish: bool): Progress
  {
    var body := UploadBody(localDir, remoteDir, d, dirs);
    Progress(body.events + UploadFinish(localDir, remoteDir, first, onFinish), body.dirs, false)
  }

  /** The `for` loop over a local listing; it stops at the first entry that throws. */
  function UploadEntries(localDir: Path, remoteDir: Path, es: seq<LocalEntry>, dirs: set<Path>): Progress
    decreases es
  {
    if es == [] then Progress([], dirs, false)
    else
      var before := UploadEntries(localDir, remoteDir, es[..|es| - 1], dirs);
      if before.aborted then before
      else
        var last := UploadEntry(localDir, remoteDir, es[|es| - 1], before.dirs);
        Progress(before.events + last.events, last.dirs, last.aborted)
  }

  /**
   * One loop iteration: `stat`, then either a nested `uploadDirectory` (which
   * omits `first`, so it defaults to true, and passes no callback) or an awaited `put`.
   */
  function UploadEntry(localDir: Path, remoteDir: Path, e: LocalEntry, dirs: set<Path>): Progress
    decreases e
  {
    if e.statFails then Progress([], dirs, true)
    else match e
      case LocalFile(n, _, putFails) => Progress([Put(Join(localDir, n), Join(remoteDir, n))], dirs, putFails)
      case LocalSub(n, _, sub) =>
        var nested := UploadBody(Join(localDir, n), Join(remoteDir, n), sub, dirs);
        Progress(nested.events + UploadFinish(Join(localDir, n), Join(remoteDir, n), true, false), nested.dirs, false)
  }

  /** The events of `uploadFile(localFilePath, remoteFilePath, onFinish)`. */
  function UploadFileTrace(localFile: Path, remoteFile: Path, putFails: bool, onFinish: bool): seq<Event>
  {
    [Put(localFile, remoteFile)] +
    (if putFails then [UploadFileFailed(localFile, remoteFile)] else []) +
    (if onFinish then [OnFinish] else [])
  }

  // ---------------------------------------------------------------------------
  // The object
  // ---------------------------------------------------------------------------

  class FileTransfer {
    /** Every side effect issued so far, in order. */
    var trace: seq<Event>
    /** The directories present on the upload target (what `exists` answers). */
    var remoteDirs: set<Path>

    constructor (existing: set<Path>)
      ensures trace == [] && remoteDirs == existing
    {
      trace := [];
      remoteDirs := existing;
    }

    method DownloadDirectory(remoteDir: Path, localDir: Path, tree: RemoteDir, first: bool, onFinish: bool)
      modifies this
      ensures trace == old(trace) + DownloadTrace(remoteDir, localDir, tree, first, onFinish)
      ensures remoteDirs == old(remoteDirs)
      decreases tree, 1
    {
      ghost var walk := DownloadWalk(remoteDir, localDir, tree);
      trace := trace + [MkdirLocal(localDir)];
      if tree.localMkdirFails {
        trace := trace + [DownloadFailed(remoteDir)];
        AppendAssociates(old(trace), [MkdirLocal(localDir)], [DownloadFailed(remoteDir)]);
        assert walk == [MkdirLocal(localDir)] + [DownloadFailed(remoteDir)];
      } else {
        trace := trace + [ListRemote(remoteDir)];
        AppendAssociates(old(trace), [MkdirLocal(localDir)], [ListRemote(remoteDir)]);
        if tree.listFails {
          trace := trace + [DownloadFailed(remoteDir)];
          AppendAssociates(old(trace), [MkdirLocal(localDir)] + [ListRemote(remoteDir)], [DownloadFailed(remoteDir)]);
          assert walk == [MkdirLocal(localDir)] + [ListRemote(remoteDir)] + [DownloadFailed(remoteDir)];
        } else {
          ghost var entries := DownloadEntries(remoteDir, localDir, tree.entries);
          DownloadListing(remoteDir, localDir, tree.entries);
          AppendAssociates(old(trace), [MkdirLocal(localDir)] + [ListRemote(remoteDir)], entries);
          AppendAssociates([MkdirLocal(localDir)], [ListRemote(remoteDir)], entries);
          assert walk == [MkdirLocal(localDir)] + ([ListRemote(remoteDir)] + entries);
        }
      }
      assert trace == old(trace) + DownloadWalk(remoteDir, localDir, tree);
      if first {
        trace := trace + [AwaitIdle, DownloadFinished(remoteDir)];
        if onFinish {
          trace := trace + [OnFinish];
        }
      }
    }

    /** The `for` loop of `downloadDirectory` over a successful listing. */
    method DownloadListing(remoteDir: Path, localDir: Path, fileList: seq<RemoteEntry>)
      modifies this
      ensures trace == old(trace) + DownloadEntries(remoteDir, localDir, fileList)
      ensures remoteDirs == old(remoteDirs)
      decreases fileList, 0
    {
      var i := 0;
      while i < |fileList|
        invariant 0 <= i <= |fileList|
        invariant trace == old(trace) + DownloadEntries(remoteDir, localDir, fileList[..i])
        invariant remoteDirs == old(remoteDirs)
      {
        var file := fileList[i];
        var remotePath := Join(remoteDir, file.name);
        var localPath := Join(localDir, file.name);
        if file.RemoteSub? {
          DownloadDirectory(remotePath, localPath, file.dir, false, false);
          assert DownloadTrace(remotePath, localPath, file.dir, false, false) == DownloadEntry(remoteDir, localDir, file);
        } else {
          trace := trace + [Enqueue(remotePath, localPath)];
        }
        DownloadEntriesStep(remoteDir, localDir, fileList, i);
        i := i + 1;
      }
      assert fileList[..i] == fileList;
    }

    /** The ensure-directory step of `uploadDirectory`; `ok` is false when `exists` or `mkdir` throws. */
    method EnsureRemoteDir(remoteDir: Path, existsFails: bool, mkdirFails: bool) returns (ok: bool)
      modifies this
      ensures var p := EnsureRemote(remoteDir, existsFails, mkdirFails, old(remoteDirs));
              trace == old(trace) + p.events && remoteDirs == p.dirs && ok == !p.aborted
    {
      if existsFails {
        return false;
      }
      var remoteExists := remoteDir in remoteDirs;
      ok := true;
      if !remoteExists {
        trace := trace + [MkdirRemote(remoteDir)];
        if mkdirFails {
          ok := false;
        } else {
          remoteDirs := remoteDirs + Ancestry(remoteDir);
        }
      }
    }

    method UploadDirectory(localDir: Path, remoteDir: Path, tree: LocalDir, first: bool, onFinish: bool)
      modifies this
      ensures var p := UploadTrace(localDir, remoteDir, tree, old(remoteDirs), first, onFinish);
              trace == old(trace) + p.events && remoteDirs == p.dirs
      decreases tree, 2
    {
      UploadTry(localDir, remoteDir, tree);
      if first {
        trace := trace + [AwaitIdle, UploadFinished(localDir, remoteDir)];
        if onFinish {
          trace := trace + [OnFinish];
        }
      }
    }

    /** The `try` block of `uploadDirectory` and its `catch`. */
    method UploadTry(localDir: Path, remoteDir: Path, tree: LocalDir)
      modifies this
      ensures var p := UploadBody(localDir, remoteDir, tree, old(remoteDirs));
              trace == old(trace) + p.events && remoteDirs == p.dirs
      decreases tree, 1
    {
      ghost var ensure := EnsureRemote(remoteDir, tree.remoteExistsFails, tree.remoteMkdirFails, remoteDirs);
      var ok := EnsureRemoteDir(remoteDir, tree.remoteExistsFails, tree.remoteMkdirFails);
      if !ok {
        trace := trace + [UploadFailed(localDir, remoteDir)];
        AppendAssociates(old(trace), ensure.events, [UploadFailed(localDir, remoteDir)]);
      } else {
        trace := trace + [ReadLocal(localDir)];
        AppendAssociates(old(trace), ensure.events, [ReadLocal(localDir)]);
        ghost var head := ensure.events + [ReadLocal(localDir)];
        if tree.readdirFails {
          trace := trace + [UploadFailed(localDir, remoteDir)];
          AppendAssociates(old(trace), head, [UploadFailed(localDir, remoteDir)]);
          AppendAssociates(ensure.events, [ReadLocal(localDir)], [UploadFailed(localDir, remoteDir)]);
        } else {
          ghost var loop := UploadEntries(localDir, remoteDir, tree.entries, ensure.dirs);
          var failed := UploadListing(localDir, remoteDir, tree.entries);
          AppendAssociates(old(trace), head, loop.events);
          if failed {
            trace := trace + [UploadFailed(localDir, remoteDir)];
            AppendAssociates(old(trace), head + loop.events, [UploadFailed(localDir, remoteDir)]);
          } else {
            assert head + loop.events + [] == head + loop.events;
          }
        }
      }
    }

    /** The `for` loop of `uploadDirectory`; `failed` is true when an entry threw. */
    method UploadListing(localDir: Path, remoteDir: Path, fileList: seq<LocalEntry>) returns (failed: bool)
      modifies this
      ensures var p := UploadEntries(localDir, remoteDir, fileList, old(remoteDirs));
              trace == old(trace) + p.events && remoteDirs == p.dirs && failed == p.aborted
      decreases fileList, 0
    {
      failed := false;
      var i := 0;
      while i < |fileList| && !failed
        invariant 0 <= i <= |fileList|
        invariant var p := UploadEntries(localDir, remoteDir, fileList[..i], old(remoteDirs));
                  trace == old(trace) + p.events && remoteDirs == p.dirs && failed == p.aborted
      {
        assert fileList[..i + 1][..i] == fileList[..i];
        var file := fileList[i];
        var localPath := Join(localDir, file.name);
        var remotePath := Join(remoteDir, file.name);
        if file.statFails {
          failed := true;
        } else if file.LocalSub? {
          UploadDirectory(localPath, remotePath, file.dir, true, false);
        } else {
          trace := trace + [Put(localPath, remotePath)];
          failed := file.putFails;
        }
        i := i + 1;
      }
      if failed {
        UploadAbortSkipsRest(localDir, remoteDir, fileList[..i], fileList[i..], old(remoteDirs));
        assert fileList[..i] + fileList[i..] == fileList;
      } else {
        assert fileList[..i] == fileList;
      }
    }

    method UploadFile(localFile: Path, remoteFile: Path, putFails: bool, onFinish: bool)
      modifies this
      ensures trace == old(trace) + UploadFileTrace(localFile, remoteFile, putFails, onFinish)
      ensures remoteDirs == old(remoteDirs)
    {
      trace := trace + [Put(localFile, remoteFile)];
      if putFails {
        trace := trace + [UploadFileFailed(localFile, remoteFile)];
      }
      if onFinish {
        trace := trace + [OnFinish];
      }
    }
  }

  // ---------------------------------------------------------------------------
  // Reference definitions
  // ---------------------------------------------------------------------------

  /** The queue tasks of a trace, in submission order. */
  function Tasks(t: seq<Event>): seq<(Path, Path)>
  {
    if t == [] then []
    else Tasks(t[..|t| - 1]) + if t[|t| - 1].Enqueue? then [(t[|t| - 1].src, t[|t| - 1].dst)] else []
  }

  /** The `put` calls of a trace, in the order they are awaited. */
  function Puts(t: seq<Event>): seq<(Path, Path)>
  {
    if t == [] then []
    else Puts(t[..|t| - 1]) + if t[|t| - 1].Put? then [(t[|t| - 1].src, t[|t| - 1].dst)] else []
  }

  /** The local directories a trace creates (one per visited directory). */
  function LocalMkdirs(t: seq<Event>): seq<Path>
  {
    if t == [] then []
    else LocalMkdirs(t[..|t| - 1]) + if t[|t| - 1].MkdirLocal? then [t[|t| - 1].path] else []
  }

  /** `base` joined with every name of `names` in turn. */
  function JoinAll(base: Path, names: seq<string>): Path
    decreases names
  {
    if names == [] then base else JoinAll(Join(base, names[0]), names[1..])
  }

  /** Prefix every name path of `ps` with `n`. */
  function Under(n: string, ps: seq<seq<string>>): (r: seq<seq<string>>)
    ensures |r| == |ps|
  {
    seq(|ps|, i requires 0 <= i < |ps| => [n] + ps[i])
  }

  /** The paths of name paths `ps` below `base`. */
  function DirsAt(base: Path, ps: seq<seq<string>>): (r: seq<Path>)
    ensures |r| == |ps|
  {
    seq(|ps|, i requires 0 <= i < |ps| => JoinAll(base, ps[i]))
  }

  /** The (source, destination) pairs for name paths `ps` below `src` and `dst`. */
  function PairsAt(src: Path, dst: Path, ps: seq<seq<string>>): (r: seq<(Path, Path)>)
    ensures |r| == |ps|
  {
    seq(|ps|, i requires 0 <= i < |ps| => (JoinAll(src, ps[i]), JoinAll(dst, ps[i])))
  }

  /**
   * The name paths, in depth-first listing order, of the files a download can
   * reach: those every enclosing directory of which was created and listed.
   */
  function ReachedFiles(d: RemoteDir): seq<seq<string>>
    decreases d
  {
    if d.localMkdirFails || d.listFails then [] else ReachedInEntries(d.entries)
  }

  function ReachedInEntries(es: seq<RemoteEntry>): seq<seq<string>>
    decreases es
  {
    if es == [] then []
    else ReachedInEntries(es[..|es| - 1]) + ReachedInEntry(es[|es| - 1])
  }

  function ReachedInEntry(e: RemoteEntry): seq<seq<string>>
    decreases e
  {
    match e
    case RemoteFile(n) => [[n]]
    case RemoteSub(n, sub) => Under(n, ReachedFiles(sub))
  }

  /** The name paths of the directories a download visits (the root is `[]`). */
  function VisitedDirs(d: RemoteDir): seq<seq<string>>
    decreases d
  {
    [[]] + if d.localMkdirFails || d.listFails then [] else VisitedInEntries(d.entries)
  }

  function VisitedInEntries(es: seq<RemoteEntry>): seq<seq<string>>
    decreases es
  {
    if es == [] then []
    else VisitedInEntries(es[..|es| - 1]) + VisitedInEntry(es[|es| - 1])
  }

  function VisitedInEntry(e: RemoteEntry): seq<seq<string>>
    decreases e
  {
    match e
    case RemoteFile(_) => []
    case RemoteSub(n, sub) => Under(n, VisitedDirs(sub))
  }

  /** The number of file entries anywhere in a remote tree. */
  function FileCount(d: RemoteDir): nat
    decreases d
  {
    FileCountIn(d.entries)
  }

  function FileCountIn(es: seq<RemoteEntry>): nat
    decreases es
  {
    if es == [] then 0
    else FileCountIn(es[..|es| - 1]) + match es[|es| - 1] case RemoteFile(_) => 1 case RemoteSub(_, sub) => FileCount(sub)
  }

  /** The number of directory entries anywhere in a remote tree. */
  function DirCount(d: RemoteDir): nat
    decreases d
  {
    DirCountIn(d.entries)
  }

  function DirCountIn(es: seq<RemoteEntry>): nat
    decreases es
  {
    if es == [] then 0
    else DirCountIn(es[..|es| - 1]) + match es[|es| - 1] case RemoteFile(_) => 0 case RemoteSub(_, sub) => 1 + DirCount(sub)
  }

  /** No `mkdir` or `list` throws anywhere in the tree. */
  predicate RemoteSound(d: RemoteDir)
    decreases d
  {
    !d.localMkdirFails && !d.listFails && forall i :: 0 <= i < |d.entries| ==> RemoteEntrySound(d.entries[i])
  }

  predicate RemoteEntrySound(e: RemoteEntry)
    decreases e
  {
    e.RemoteSub? ==> RemoteSound(e.dir)
  }

  // ---------------------------------------------------------------------------
  // Download properties
  // ---------------------------------------------------------------------------

  lemma {:induction false} TasksAppend(a: seq<Event>, b: seq<Event>)
    ensures Tasks(a + b) == Tasks(a) + Tasks(b)
    decreases |b|
  {
    if b != [] {
      var init := b[..|b| - 1];
      assert (a + b)[..|a + b| - 1] == a + init;
      assert (a + b)[|a + b| - 1] == b[|b| - 1];
      TasksAppend(a, init);
    } else {
      assert a + b == a;
    }
  }

  lemma {:induction false} LocalMkdirsAppend(a: seq<Event>, b: seq<Event>)
    ensures LocalMkdirs(a + b) == LocalMkdirs(a) + LocalMkdirs(b)
    decreases |b|
  {
    if b != [] {
      var init := b[..|b| - 1];
      assert (a + b)[..|a + b| - 1] == a + init;
      assert (a + b)[|a + b| - 1] == b[|b| - 1];
      LocalMkdirsAppend(a, init);
    } else {
      assert a + b == a;
    }
  }

  lemma JoinAllUnder(base: Path, n: string, p: seq<string>)
    ensures JoinAll(base, [n] + p) == JoinAll(Join(base, n), p)
  {
    assert ([n] + p)[1..] == p;
  }

  lemma PairsUnder(src: Path, dst: Path, n: string, ps: seq<seq<string>>)
    ensures PairsAt(src, dst, Under(n, ps)) == PairsAt(Join(src, n), Join(dst, n), ps)
  {
    forall i | 0 <= i < |ps| ensures PairsAt(src, dst, Under(n, ps))[i] == PairsAt(Join(src, n), Join(dst, n), ps)[i] {
      JoinAllUnder(src, n, ps[i]);
      JoinAllUnder(dst, n, ps[i]);
    }
  }

  lemma PairsAppend(src: Path, dst: Path, a: seq<seq<string>>, b: seq<seq<string>>)
    ensures PairsAt(src, dst, a + b) == PairsAt(src, dst, a) + PairsAt(src, dst, b)
  {
  }

  lemma DirsUnder(base: Path, n: string, ps: seq<seq<string>>)
    ensures DirsAt(base, Under(n, ps)) == DirsAt(Join(base, n), ps)
  {
    forall i | 0 <= i < |ps| ensures DirsAt(base, Under(n, ps))[i] == DirsAt(Join(base, n), ps)[i] {
      JoinAllUnder(base, n, ps[i]);
    }
  }

  lemma DirsAppend(base: Path, a: seq<seq<string>>, b: seq<seq<string>>)
    ensures DirsAt(base, a + b) == DirsAt(base, a) + DirsAt(base, b)
  {
  }

  lemma LocalMkdirsNone(t: seq<Event>)
    requires forall i :: 0 <= i < |t| ==> !t[i].MkdirLocal?
    ensures LocalMkdirs(t) == []
  {
    if t != [] {
      LocalMkdirsNone(t[..|t| - 1]);
    }
  }

  /**
   * The download submits exactly one task per reachable file, in depth-first
   * listing order, pairing `join(remoteDir, name…)` with `join(localDir, name…)`;
   * directories never become tasks.
   */
  lemma {:induction false} DownloadTasksAreReachedFiles(remoteDir: Path, localDir: Path, d: RemoteDir)
    ensures Tasks(DownloadWalk(remoteDir, localDir, d)) == PairsAt(remoteDir, localDir, ReachedFiles(d))
    decreases d
  {
    var w := DownloadWalk(remoteDir, localDir, d);
    if d.localMkdirFails {
      assert w == [MkdirLocal(localDir)] + [DownloadFailed(remoteDir)];
      TasksAppend([MkdirLocal(localDir)], [DownloadFailed(remoteDir)]);
      assert Tasks([MkdirLocal(localDir)]) == Tasks([]) + [];
    } else {
      var head := [MkdirLocal(localDir), ListRemote(remoteDir)];
      assert Tasks(head) == [] by {
        assert head[..1] == [MkdirLocal(localDir)];
        assert Tasks([MkdirLocal(localDir)]) == Tasks([]) + [];
      }
      if d.listFails {
        assert w == head + [DownloadFailed(remoteDir)];
        TasksAppend(head, [DownloadFailed(remoteDir)]);
        assert Tasks([DownloadFailed(remoteDir)]) == Tasks([]) + [];
      } else {
        assert w == head + DownloadEntries(remoteDir, localDir, d.entries);
        TasksAppend(head, DownloadEntries(remoteDir, localDir, d.entries));
        DownloadEntriesTasks(remoteDir, localDir, d.entries);
      }
    }
  }

  lemma {:induction false} DownloadEntriesTasks(remoteDir: Path, localDir: Path, es: seq<RemoteEntry>)
    ensures Tasks(DownloadEntries(remoteDir, localDir, es)) == PairsAt(remoteDir, localDir, ReachedInEntries(es))
    decreases es
  {
    if es != [] {
      var init, last := es[..|es| - 1], es[|es| - 1];
      DownloadEntriesTasks(remoteDir, localDir, init);
      TasksAppend(DownloadEntries(remoteDir, localDir, init), DownloadEntry(remoteDir, localDir, last));
      PairsAppend(remoteDir, localDir, ReachedInEntries(init), ReachedInEntry(last));
      match last
      case RemoteFile(n) =>
        assert Tasks([Enqueue(Join(remoteDir, n), Join(localDir, n))]) == Tasks([]) + [(Join(remoteDir, n), Join(localDir, n))];
        assert JoinAll(remoteDir, [n]) == JoinAll(Join(remoteDir, n), []);
        assert JoinAll(localDir, [n]) == JoinAll(Join(localDir, n), []);
      case RemoteSub(n, sub) =>
        DownloadTasksAreReachedFiles(Join(remoteDir, n), Join(localDir, n), sub);
        PairsUnder(remoteDir, localDir, n, ReachedFiles(sub));
    }
  }

  /** Every directory the download visits gets its local counterpart created, in depth-first order. */
  lemma {:induction false} DownloadCreatesVisitedDirs(remoteDir: Path, localDir: Path, d: RemoteDir)
    ensures LocalMkdirs(DownloadWalk(remoteDir, localDir, d)) == DirsAt(localDir, VisitedDirs(d))
    decreases d
  {
    WalkMkdirsSplit(remoteDir, localDir, d);
    VisitedDirsSplit(localDir, d);
    if !d.localMkdirFails && !d.listFails {
      DownloadEntriesMkdirs(remoteDir, localDir, d.entries);
    }
  }

  /** The directories one walk creates: its own, then those of its listing. */
  lemma WalkMkdirsSplit(remoteDir: Path, localDir: Path, d: RemoteDir)
    ensures LocalMkdirs(DownloadWalk(remoteDir, localDir, d))
            == [localDir] + if d.localMkdirFails || d.listFails then [] else LocalMkdirs(DownloadEntries(remoteDir, localDir, d.entries))
  {
    var head := [MkdirLocal(localDir)];
    var body :=
      if d.localMkdirFails then [DownloadFailed(remoteDir)]
      else if d.listFails then [ListRemote(remoteDir), DownloadFailed(remoteDir)]
      else [ListRemote(remoteDir)] + DownloadEntries(remoteDir, localDir, d.entries);
    assert DownloadWalk(remoteDir, localDir, d) == head + body;
    LocalMkdirsAppend(head, body);
    assert LocalMkdirs(head) == [localDir] by {
      assert LocalMkdirs(head) == LocalMkdirs([]) + [localDir];
    }
    if d.localMkdirFails || d.listFails {
      LocalMkdirsNone(body);
    } else {
      LocalMkdirsAppend([ListRemote(remoteDir)], DownloadEntries(remoteDir, localDir, d.entries));
      LocalMkdirsNone([ListRemote(remoteDir)]);
    }
  }

  /** The visited directories of a tree placed below `localDir`: the root, then those of its listing. */
  lemma VisitedDirsSplit(localDir: Path, d: RemoteDir)
    ensures DirsAt(localDir, VisitedDirs(d))
            == [localDir] + if d.localMkdirFails || d.listFails then [] else DirsAt(localDir, VisitedInEntries(d.entries))
  {
    var rest := if d.localMkdirFails || d.listFails then [] else VisitedInEntries(d.entries);
    assert VisitedDirs(d) == [[]] + rest;
    DirsAppend(localDir, [[]], rest);
    assert DirsAt(localDir, [[]]) == [localDir];
  }

  lemma {:induction false} DownloadEntriesMkdirs(remoteDir: Path, localDir: Path, es: seq<RemoteEntry>)
    ensures LocalMkdirs(DownloadEntries(remoteDir, localDir, es)) == DirsAt(localDir, VisitedInEntries(es))
    decreases es
  {
    if es != [] {
      var init, last := es[..|es| - 1], es[|es| - 1];
      DownloadEntriesMkdirs(remoteDir, localDir, init);
      LocalMkdirsAppend(DownloadEntries(remoteDir, localDir, init), DownloadEntry(remoteDir, localDir, last));
      DirsAppend(localDir, VisitedInEntries(init), VisitedInEntry(last));
      match last
      case RemoteFile(n) =>
        LocalMkdirsNone([Enqueue(Join(remoteDir, n), Join(localDir, n))]);
      case RemoteSub(n, sub) =>
        DownloadCreatesVisitedDirs(Join(remoteDir, n), Join(localDir, n), sub);
        DirsUnder(localDir, n, VisitedDirs(sub));
    }
  }

  lemma {:induction false} ReachedFilesCount(d: RemoteDir)
    requires RemoteSound(d)
    ensures |ReachedFiles(d)| == FileCount(d)
    decreases d
  {
    ReachedEntriesCount(d.entries);
  }

  lemma {:induction false} ReachedEntriesCount(es: seq<RemoteEntry>)
    requires forall i :: 0 <= i < |es| ==> RemoteEntrySound(es[i])
    ensures |ReachedInEntries(es)| == FileCountIn(es)
    decreases es
  {
    if es != [] {
      ReachedEntriesCount(es[..|es| - 1]);
      assert RemoteEntrySound(es[|es| - 1]);
      if es[|es| - 1].RemoteSub? {
        ReachedFilesCount(es[|es| - 1].dir);
      }
    }
  }

  lemma {:induction false} VisitedDirsCount(d: RemoteDir)
    requires RemoteSound(d)
    ensures |VisitedDirs(d)| == 1 + DirCount(d)
    decreases d
  {
    VisitedEntriesCount(d.entries);
  }

  lemma {:induction false} VisitedEntriesCount(es: seq<RemoteEntry>)
    requires forall i :: 0 <= i < |es| ==> RemoteEntrySound(es[i])
    ensures |VisitedInEntries(es)| == DirCountIn(es)
    decreases es
  {
    if es != [] {
      VisitedEntriesCount(es[..|es| - 1]);
      assert RemoteEntrySound(es[|es| - 1]);
      if es[|es| - 1].RemoteSub? {
        VisitedDirsCount(es[|es| - 1].dir);
      }
    }
  }

  /**
   * For a tree where no `mkdir` or `list` throws, the download submits exactly
   * as many tasks as the tree has files and creates one local directory per
   * directory of the tree (its root included).
   */
  lemma DownloadCounts(remoteDir: Path, localDir: Path, d: RemoteDir)
    requires RemoteSound(d)
    ensures |Tasks(DownloadWalk(remoteDir, localDir, d))| == FileCount(d)
    ensures |LocalMkdirs(DownloadWalk(remoteDir, localDir, d))| == 1 + DirCount(d)
  {
    DownloadTasksAreReachedFiles(remoteDir, localDir, d);
    ReachedFilesCount(d);
    DownloadCreatesVisitedDirs(remoteDir, localDir, d);
    VisitedDirsCount(d);
  }

  /** One more loop iteration appends the events of one more entry. */
  lemma DownloadEntriesStep(remoteDir: Path, localDir: Path, es: seq<RemoteEntry>, i: nat)
    requires i < |es|
    ensures DownloadEntries(remoteDir, localDir, es[..i + 1])
            == DownloadEntries(remoteDir, localDir, es[..i]) + DownloadEntry(remoteDir, localDir, es[i])
  {
    assert es[..i + 1][..i] == es[..i];
  }

  /** The loop over siblings is compositional: a listing split in two is walked as two listings. */
  lemma {:induction false} DownloadEntriesAppend(remoteDir: Path, localDir: Path, a: seq<RemoteEntry>, b: seq<RemoteEntry>)
    ensures DownloadEntries(remoteDir, localDir, a + b) == DownloadEntries(remoteDir, localDir, a) + DownloadEntries(remoteDir, localDir, b)
    decreases |b|
  {
    if b != [] {
      var init := b[..|b| - 1];
      assert (a + b)[..|a + b| - 1] == a + init;
      assert (a + b)[|a + b| - 1] == b[|b| - 1];
      DownloadEntriesAppend(remoteDir, localDir, a, init);
    } else {
      assert a + b == a;
    }
  }

  /**
   * Error containment: when creating or listing one subdirectory fails, that
   * subdirectory contributes only its own attempt and error log, and the
   * siblings before and after it are walked exactly as without it.
   */
  lemma DownloadFailureContained(remoteDir: Path, localDir: Path, before: seq<RemoteEntry>, n: string, bad: RemoteDir, after: seq<RemoteEntry>)
    requires bad.localMkdirFails || bad.listFails
    ensures var sub := Join(remoteDir, n);
            DownloadEntries(remoteDir, localDir, before + [RemoteSub(n, bad)] + after)
            == DownloadEntries(remoteDir, localDir, before)
               + [MkdirLocal(Join(localDir, n))]
               + (if bad.localMkdirFails then [] else [ListRemote(sub)])
               + [DownloadFailed(sub)]
               + DownloadEntries(remoteDir, localDir, after)
  {
    var sub := Join(remoteDir, n);
    DownloadEntriesAppend(remoteDir, localDir, before + [RemoteSub(n, bad)], after);
    DownloadEntriesAppend(remoteDir, localDir, before, [RemoteSub(n, bad)]);
    assert [RemoteSub(n, bad)][..0] == [];
    assert DownloadEntries(remoteDir, localDir, [RemoteSub(n, bad)])
           == DownloadEntries(remoteDir, localDir, []) + DownloadEntry(remoteDir, localDir, RemoteSub(n, bad));
    FailedWalk(sub, Join(localDir, n), bad);
  }

  /** A walk whose local `mkdir` or remote listing throws only attempts it and logs the error. */
  lemma FailedWalk(remoteDir: Path, localDir: Path, d: RemoteDir)
    requires d.localMkdirFails || d.listFails
    ensures DownloadWalk(remoteDir, localDir, d)
            == [MkdirLocal(localDir)] + (if d.localMkdirFails then [] else [ListRemote(remoteDir)]) + [DownloadFailed(remoteDir)]
  {
  }

  /**
   * Ordering of one call: the local directory is created first, the remote
   * listing comes second, and a top-level call with a callback calls it as
   * its very last step.
   */
  lemma DownloadTraceOrder(remoteDir: Path, localDir: Path, d: RemoteDir, first: bool, onFinish: bool)
    ensures var t := DownloadTrace(remoteDir, localDir, d, first, onFinish);
            && t[0] == MkdirLocal(localDir)
            && (!d.localMkdirFails ==> t[1] == ListRemote(remoteDir))
            && (first && onFinish ==> t[|t| - 1] == OnFinish)
  {
  }

  /**
   * Only a top-level call waits on the queue and calls back, and each of
   * them happens exactly once.
   */
  lemma DownloadCallsBackOnce(remoteDir: Path, localDir: Path, d: RemoteDir, first: bool, onFinish: bool)
    ensures var t := DownloadTrace(remoteDir, localDir, d, first, onFinish);
            && multiset(t)[OnFinish] == (if first && onFinish then 1 else 0)
            && multiset(t)[AwaitIdle] == (if first then 1 else 0)
  {
    var w := DownloadWalk(remoteDir, localDir, d);
    DownloadWalkQuiet(remoteDir, localDir, d);
    assert multiset(w)[OnFinish] == 0 && multiset(w)[AwaitIdle] == 0;
    if first {
      var tail := [AwaitIdle, DownloadFinished(remoteDir)] + (if onFinish then [OnFinish] else []);
      assert DownloadTrace(remoteDir, localDir, d, first, onFinish) == w + tail;
      assert multiset(w + tail) == multiset(w) + multiset(tail);
    } else {
      assert DownloadTrace(remoteDir, localDir, d, first, onFinish) == w + [];
      assert w + [] == w;
    }
  }

  /** A download walk (any nested call) never waits on the queue and never calls back. */
  lemma {:induction false} DownloadWalkQuiet(remoteDir: Path, localDir: Path, d: RemoteDir)
    ensures OnFinish !in DownloadWalk(remoteDir, localDir, d)
    ensures AwaitIdle !in DownloadWalk(remoteDir, localDir, d)
    decreases d
  {
    if !d.localMkdirFails && !d.listFails {
      DownloadEntriesQuiet(remoteDir, localDir, d.entries);
    }
  }

  lemma {:induction false} DownloadEntriesQuiet(remoteDir: Path, localDir: Path, es: seq<RemoteEntry>)
    ensures OnFinish !in DownloadEntries(remoteDir, localDir, es)
    ensures AwaitIdle !in DownloadEntries(remoteDir, localDir, es)
    decreases es
  {
    if es != [] {
      DownloadEntriesQuiet(remoteDir, localDir, es[..|es| - 1]);
      if es[|es| - 1].RemoteSub? {
        DownloadWalkQuiet(Join(remoteDir, es[|es| - 1].name), Join(localDir, es[|es| - 1].name), es[|es| - 1].dir);
      }
    }
  }

  // ---------------------------------------------------------------------------
  // Upload properties
  // ---------------------------------------------------------------------------

  /** Once an entry has thrown, the remaining entries of that listing are never touched. */
  lemma {:induction false} UploadAbortSkipsRest(localDir: Path, remoteDir: Path, es: seq<LocalEntry>, rest: seq<LocalEntry>, dirs: set<Path>)
    requires UploadEntries(localDir, remoteDir, es, dirs).aborted
    ensures UploadEntries(localDir, remoteDir, es + rest, dirs) == UploadEntries(localDir, remoteDir, es, dirs)
    decreases |rest|
  {
    if rest != [] {
      var init := rest[..|rest| - 1];
      assert (es + rest)[..|es + rest| - 1] == es + init;
      UploadAbortSkipsRest(localDir, remoteDir, es, init, dirs);
    } else {
      assert es + rest == es;
    }
  }

  /** A nested directory never aborts its parent's loop: the parent goes on with the next sibling. */
  lemma {:induction false} UploadEntriesAppendSub(localDir: Path, remoteDir: Path, es: seq<LocalEntry>, n: string, sub: LocalDir, dirs: set<Path>)
    requires !UploadEntries(localDir, remoteDir, es, dirs).aborted
    ensures var p := UploadEntries(localDir, remoteDir, es, dirs);
            var nested := UploadTrace(Join(localDir, n), Join(remoteDir, n), sub, p.dirs, true, false);
            UploadEntries(localDir, remoteDir, es + [LocalSub(n, false, sub)], dirs)
            == Progress(p.events + nested.events, nested.dirs, false)
  {
    assert (es + [LocalSub(n, false, sub)])[..|es|] == es;
  }

  lemma {:induction false} PutsAppend(a: seq<Event>, b: seq<Event>)
    ensures Puts(a + b) == Puts(a) + Puts(b)
    decreases |b|
  {
    if b != [] {
      var init := b[..|b| - 1];
      assert (a + b)[..|a + b| - 1] == a + init;
      assert (a + b)[|a + b| - 1] == b[|b| - 1];
      PutsAppend(a, init);
    } else {
      assert a + b == a;
    }
  }

  lemma PutsNone(t: seq<Event>)
    requires forall i :: 0 <= i < |t| ==> !t[i].Put?
    ensures Puts(t) == []
  {
    if t != [] {
      PutsNone(t[..|t| - 1]);
    }
  }

  lemma AppendAssociates(a: seq<Event>, b: seq<Event>, c: seq<Event>)
    ensures a + b + c == a + (b + c)
  {
  }

  /** No `exists`, `mkdir`, `readdir`, `stat` or `put` throws anywhere in the tree. */
  predicate LocalSound(d: LocalDir)
    decreases d
  {
    !d.remoteExistsFails && !d.remoteMkdirFails && !d.readdirFails && forall i :: 0 <= i < |d.entries| ==> LocalEntrySound(d.entries[i])
  }

  predicate LocalEntrySound(e: LocalEntry)
    decreases e
  {
    !e.statFails && match e case LocalFile(_, _, putFails) => !putFails case LocalSub(_, _, sub) => LocalSound(sub)
  }

  /** The name paths of all files of a local tree, in depth-first listing order. */
  function LocalFiles(d: LocalDir): seq<seq<string>>
    decreases d
  {
    LocalFilesIn(d.entries)
  }

  function LocalFilesIn(es: seq<LocalEntry>): seq<seq<string>>
    decreases es
  {
    if es == [] then []
    else LocalFilesIn(es[..|es| - 1]) + match es[|es| - 1]
      case LocalFile(n, _, _) => [[n]]
      case LocalSub(n, _, sub) => Under(n, LocalFiles(sub))
  }

  /**
   * When nothing throws, the upload awaits exactly one `put` per file of the
   * local tree, in depth-first `readdir` order, each from `join(localDir, …)`
   * to `join(remoteDir, …)`.
   */
  lemma UploadPutsInOrder(localDir: Path, remoteDir: Path, d: LocalDir, dirs: set<Path>, first: bool, onFinish: bool)
    requires LocalSound(d)
    ensures Puts(UploadTrace(localDir, remoteDir, d, dirs, first, onFinish).events) == PairsAt(localDir, remoteDir, LocalFiles(d))
  {
    var body := UploadBody(localDir, remoteDir, d, dirs);
    UploadBodyPuts(localDir, remoteDir, d, dirs);
    PutsAppend(body.events, UploadFinish(localDir, remoteDir, first, onFinish));
    PutsNone(UploadFinish(localDir, remoteDir, first, onFinish));
  }

  lemma {:induction false} UploadBodyPuts(localDir: Path, remoteDir: Path, d: LocalDir, dirs: set<Path>)
    requires LocalSound(d)
    ensures !UploadBody(localDir, remoteDir, d, dirs).aborted
    ensures Puts(UploadBody(localDir, remoteDir, d, dirs).events) == PairsAt(localDir, remoteDir, LocalFiles(d))
    decreases d
  {
    var ensure := EnsureRemote(remoteDir, d.remoteExistsFails, d.remoteMkdirFails, dirs);
    var loop := UploadEntries(localDir, remoteDir, d.entries, ensure.dirs);
    UploadEntriesPuts(localDir, remoteDir, d.entries, ensure.dirs);
    var head := ensure.events + [ReadLocal(localDir)];
    assert UploadBody(localDir, remoteDir, d, dirs).events == head + loop.events + [];
    PutsAppend(head, loop.events);
    PutsNone(head);
    assert head + loop.events + [] == head + loop.events;
  }

  lemma {:induction false} UploadEntriesPuts(localDir: Path, remoteDir: Path, es: seq<LocalEntry>, dirs: set<Path>)
    requires forall i :: 0 <= i < |es| ==> LocalEntrySound(es[i])
    ensures !UploadEntries(localDir, remoteDir, es, dirs).aborted
    ensures Puts(UploadEntries(localDir, remoteDir, es, dirs).events) == PairsAt(localDir, remoteDir, LocalFilesIn(es))
    decreases es
  {
    if es != [] {
      var init, last := es[..|es| - 1], es[|es| - 1];
      UploadEntriesPuts(localDir, remoteDir, init, dirs);
      var before := UploadEntries(localDir, remoteDir, init, dirs);
      var step := UploadEntry(localDir, remoteDir, last, before.dirs);
      assert LocalEntrySound(last);
      PutsAppend(before.events, step.events);
      match last
      case LocalFile(n, _, _) =>
        UploadFilePuts(localDir, remoteDir, n, before.dirs);
        PairsAppend(localDir, remoteDir, LocalFilesIn(init), [[n]]);
      case LocalSub(n, _, sub) =>
        var nested := UploadBody(Join(localDir, n), Join(remoteDir, n), sub, before.dirs);
        UploadBodyPuts(Join(localDir, n), Join(remoteDir, n), sub, before.dirs);
        assert step.events == nested.events + UploadFinish(Join(localDir, n), Join(remoteDir, n), true, false);
        UploadSubPuts(localDir, remoteDir, n, nested.events, LocalFiles(sub));
        PairsAppend(localDir, remoteDir, LocalFilesIn(init), Under(n, LocalFiles(sub)));
    }
  }

  /** A file entry whose `stat` and `put` succeed awaits exactly its own `put`. */
  lemma UploadFilePuts(localDir: Path, remoteDir: Path, n: string, dirs: set<Path>)
    ensures Puts(UploadEntry(localDir, remoteDir, LocalFile(n, false, false), dirs).events) == PairsAt(localDir, remoteDir, [[n]])
  {
    assert Puts([Put(Join(localDir, n), Join(remoteDir, n))]) == Puts([]) + [(Join(localDir, n), Join(remoteDir, n))];
    assert JoinAll(localDir, [n]) == JoinAll(Join(localDir, n), []);
    assert JoinAll(remoteDir, [n]) == JoinAll(Join(remoteDir, n), []);
  }

  /**
   * A subdirectory entry awaits the `put` calls of its nested upload, whose
   * events are `nested`, below its own name.
   */
  lemma UploadSubPuts(localDir: Path, remoteDir: Path, n: string, nested: seq<Event>, files: seq<seq<string>>)
    requires Puts(nested) == PairsAt(Join(localDir, n), Join(remoteDir, n), files)
    ensures Puts(nested + UploadFinish(Join(localDir, n), Join(remoteDir, n), true, false))
            == PairsAt(localDir, remoteDir, Under(n, files))
  {
    var l, r := Join(localDir, n), Join(remoteDir, n);
    PutsAppend(nested, UploadFinish(l, r, true, false));
    PutsNone(UploadFinish(l, r, true, false));
    PairsUnder(localDir, remoteDir, n, files);
  }

  /**
   * The ensure-directory step creates nothing for a directory that already
   * exists, and after it succeeds the directory exists, so running it twice
   * in a row makes the second run a no-op.
   */
  lemma EnsureRemoteIdempotent(remoteDir: Path, mkdirFails: bool, mkdirFailsAgain: bool, dirs: set<Path>)
    ensures var once := EnsureRemote(remoteDir, false, mkdirFails, dirs);
            !once.aborted ==> EnsureRemote(remoteDir, false, mkdirFailsAgain, once.dirs) == Progress([], once.dirs, false)
    ensures MkdirRemote(remoteDir) !in EnsureRemote(remoteDir, false, mkdirFails, dirs + {remoteDir}).events
  {
  }

  /** A remote file system contains, with every directory, all its ancestors. */
  ghost predicate AncestorClosed(dirs: set<Path>)
  {
    forall d, k :: d in dirs && 0 < k < |d| && d[k] == '/' ==> d[..k] in dirs
  }

  /** Ensuring a directory, whatever throws, leaves the remote side closed under ancestors. */
  lemma EnsureRemoteKeepsClosed(remoteDir: Path, existsFails: bool, mkdirFails: bool, dirs: set<Path>)
    requires AncestorClosed(dirs)
    ensures AncestorClosed(EnsureRemote(remoteDir, existsFails, mkdirFails, dirs).dirs)
  {
    var once := EnsureRemote(remoteDir, existsFails, mkdirFails, dirs);
    if !existsFails && remoteDir !in dirs && !mkdirFails {
      forall d, j | d in once.dirs && 0 < j < |d| && d[j] == '/'
        ensures d[..j] in once.dirs
      {
        if d == remoteDir {
          assert d[..j] in Ancestry(remoteDir);
        } else if d !in dirs {
          assert d in Ancestry(remoteDir) - {remoteDir};
          var i :| 0 < i < |remoteDir| && remoteDir[i] == '/' && d == remoteDir[..i];
          assert d[..j] == remoteDir[..j];
          assert remoteDir[..j] in Ancestry(remoteDir);
        }
      }
    }
  }

  /**
   * `mkdir` is recursive: on a remote side closed under ancestors, ensuring
   * any ancestor of a directory just ensured creates nothing.
   */
  lemma EnsureRemoteAncestor(remoteDir: Path, k: nat, mkdirFails: bool, mkdirFailsAgain: bool, dirs: set<Path>)
    requires AncestorClosed(dirs)
    requires 0 < k < |remoteDir| && remoteDir[k] == '/'
    ensures var once := EnsureRemote(remoteDir, false, mkdirFails, dirs);
            !once.aborted ==> EnsureRemote(remoteDir[..k], false, mkdirFailsAgain, once.dirs) == Progress([], once.dirs, false)
  {
    assert remoteDir[..k] in Ancestry(remoteDir);
  }

  /** A whole upload, wherever it stops, leaves the remote side closed under ancestors. */
  lemma UploadKeepsClosed(localDir: Path, remoteDir: Path, d: LocalDir, dirs: set<Path>)
    requires AncestorClosed(dirs)
    ensures AncestorClosed(UploadBody(localDir, remoteDir, d, dirs).dirs)
    decreases d
  {
    EnsureRemoteKeepsClosed(remoteDir, d.remoteExistsFails, d.remoteMkdirFails, dirs);
    var ensure := EnsureRemote(remoteDir, d.remoteExistsFails, d.remoteMkdirFails, dirs);
    if !ensure.aborted && !d.readdirFails {
      UploadEntriesKeepClosed(localDir, remoteDir, d.entries, ensure.dirs);
    }
  }

  lemma UploadEntriesKeepClosed(localDir: Path, remoteDir: Path, es: seq<LocalEntry>, dirs: set<Path>)
    requires AncestorClosed(dirs)
    ensures AncestorClosed(UploadEntries(localDir, remoteDir, es, dirs).dirs)
    decreases es
  {
    if es != [] {
      UploadEntriesKeepClosed(localDir, remoteDir, es[..|es| - 1], dirs);
      var before := UploadEntries(localDir, remoteDir, es[..|es| - 1], dirs);
      if !before.aborted {
        var e := es[|es| - 1];
        if !e.statFails && e.LocalSub? {
          UploadKeepsClosed(Join(localDir, e.name), Join(remoteDir, e.name), e.dir, before.dirs);
        }
      }
    }
  }

  /**
   * A throwing `exists` abandons the `try` block before anything else: the
   * call only logs its error, and no directory is created.
   */
  lemma UploadExistsFails(localDir: Path, remoteDir: Path, d: LocalDir, dirs: set<Path>)
    requires d.remoteExistsFails
    ensures UploadBody(localDir, remoteDir, d, dirs) == Progress([UploadFailed(localDir, remoteDir)], dirs, true)
  {
  }

  /**
   * Only the callback the caller passed is ever called, exactly once, as the
   * last step of the top-level call, whatever failed on the way.
   */
  lemma UploadCallsBackOnce(localDir: Path, remoteDir: Path, d: LocalDir, dirs: set<Path>, onFinish: bool)
    ensures var t := UploadTrace(localDir, remoteDir, d, dirs, true, onFinish).events;
            && multiset(t)[OnFinish] == (if onFinish then 1 else 0)
            && (onFinish ==> t[|t| - 1] == OnFinish)
  {
    UploadBodyQuiet(localDir, remoteDir, d, dirs);
  }

  /** The `try`/`catch` part of any upload call, nested calls included, never calls back. */
  lemma {:induction false} UploadBodyQuiet(localDir: Path, remoteDir: Path, d: LocalDir, dirs: set<Path>)
    ensures OnFinish !in UploadBody(localDir, remoteDir, d, dirs).events
    decreases d
  {
    var ensure := EnsureRemote(remoteDir, d.remoteExistsFails, d.remoteMkdirFails, dirs);
    if !ensure.aborted && !d.readdirFails {
      UploadEntriesQuiet(localDir, remoteDir, d.entries, ensure.dirs);
    }
  }

  lemma {:induction false} UploadEntriesQuiet(localDir: Path, remoteDir: Path, es: seq<LocalEntry>, dirs: set<Path>)
    ensures OnFinish !in UploadEntries(localDir, remoteDir, es, dirs).events
    decreases es
  {
    if es != [] {
      var init, last := es[..|es| - 1], es[|es| - 1];
      UploadEntriesQuiet(localDir, remoteDir, init, dirs);
      var before := UploadEntries(localDir, remoteDir, init, dirs);
      if !before.aborted && !last.statFails && last.LocalSub? {
        UploadBodyQuiet(Join(localDir, last.name), Join(remoteDir, last.name), last.dir, before.dirs);
      }
    }
  }

  /** The number of directory entries anywhere in a local tree. */
  function LocalDirCount(d: LocalDir): nat
    decreases d
  {
    LocalDirCountIn(d.entries)
  }

  function LocalDirCountIn(es: seq<LocalEntry>): nat
    decreases es
  {
    if es == [] then 0
    else LocalDirCountIn(es[..|es| - 1]) + match es[|es| - 1] case LocalFile(_, _, _) => 0 case LocalSub(_, _, sub) => 1 + LocalDirCount(sub)
  }

  /**
   * Nested upload calls omit `first`, which defaults to true: when nothing
   * throws, every directory of the tree, not just the top one, waits on the
   * queue and logs its completion.
   */
  lemma {:induction false} UploadIdleWaits(localDir: Path, remoteDir: Path, d: LocalDir, dirs: set<Path>)
    requires LocalSound(d)
    ensures multiset(UploadBody(localDir, remoteDir, d, dirs).events)[AwaitIdle] == LocalDirCount(d)
    decreases d
  {
    var ensure := EnsureRemote(remoteDir, d.remoteExistsFails, d.remoteMkdirFails, dirs);
    UploadEntriesIdleWaits(localDir, remoteDir, d.entries, ensure.dirs);
    UploadEntriesPuts(localDir, remoteDir, d.entries, ensure.dirs);
  }

  lemma {:induction false} UploadEntriesIdleWaits(localDir: Path, remoteDir: Path, es: seq<LocalEntry>, dirs: set<Path>)
    requires forall i :: 0 <= i < |es| ==> LocalEntrySound(es[i])
    ensures multiset(UploadEntries(localDir, remoteDir, es, dirs).events)[AwaitIdle] == LocalDirCountIn(es)
    decreases es
  {
    if es != [] {
      var init, last := es[..|es| - 1], es[|es| - 1];
      UploadEntriesIdleWaits(localDir, remoteDir, init, dirs);
      UploadEntriesPuts(localDir, remoteDir, init, dirs);
      var before := UploadEntries(localDir, remoteDir, init, dirs);
      assert LocalEntrySound(last);
      if last.LocalSub? {
        UploadIdleWaits(Join(localDir, last.name), Join(remoteDir, last.name), last.dir, before.dirs);
      }
    }
  }

  /** `uploadFile` calls back exactly once, last, whether `put` succeeds or throws. */
  lemma UploadFileCallsBackOnce(localFile: Path, remoteFile: Path, putFails: bool)
    ensures var t := UploadFileTrace(localFile, remoteFile, putFails, true);
            multiset(t)[OnFinish] == 1 && t[|t| - 1] == OnFinish && t[0] == Put(localFile, remoteFile)
  {
    if putFails {
      assert UploadFileTrace(localFile, remoteFile, putFails, true)
             == [Put(localFile, remoteFile), UploadFileFailed(localFile, remoteFile), OnFinish];
    } else {
      assert UploadFileTrace(localFile, remoteFile, putFails, true) == [Put(localFile, remoteFile), OnFinish];
    }
  }

  /** A one- or two-entry listing reaches and visits what its entries do, in order. */
  lemma {:induction false} ShortListing(e1: RemoteEntry, e2: RemoteEntry)
    ensures ReachedInEntries([e1]) == ReachedInEntry(e1)
    ensures VisitedInEntries([e1]) == VisitedInEntry(e1)
    ensures ReachedInEntries([e1, e2]) == ReachedInEntry(e1) + ReachedInEntry(e2)
    ensures VisitedInEntries([e1, e2]) == VisitedInEntry(e1) + VisitedInEntry(e2)
  {
    assert [e1][..0] == [];
    assert [e1, e2][..1] == [e1];
  }

  /** A directory holding one file reaches that file and visits only itself. */
  lemma OneFileDir(n: string)
    ensures ReachedFiles(RemoteDir(false, false, [RemoteFile(n)])) == [[n]]
    ensures VisitedDirs(RemoteDir(false, false, [RemoteFile(n)])) == [[]]
  {
    ShortListing(RemoteFile(n), RemoteFile(n));
  }

  /** Prefixing one or two name paths. */
  lemma UnderShort(n: string, p: seq<string>, q: seq<string>)
    ensures Under(n, [p]) == [[n] + p]
    ensures Under(n, [p, q]) == [[n] + p, [n] + q]
  {
  }

  /** The scenario of a tree `a/file1.txt`, `a/b/file2.txt`, `c/file3.txt`: the name paths below `a`. */
  lemma ThreeFileNamesA()
    ensures var b := RemoteDir(false, false, [RemoteFile("file2.txt")]);
            var a := RemoteDir(false, false, [RemoteFile("file1.txt"), RemoteSub("b", b)]);
            && ReachedFiles(a) == [["file1.txt"], ["b", "file2.txt"]]
            && VisitedDirs(a) == [[], ["b"]]
  {
    var b := RemoteDir(false, false, [RemoteFile("file2.txt")]);
    OneFileDir("file2.txt");
    ShortListing(RemoteFile("file1.txt"), RemoteSub("b", b));
    UnderShort("b", ["file2.txt"], []);
    assert ["b"] + ["file2.txt"] == ["b", "file2.txt"];
    assert ["b"] + [] == ["b"];
  }

  /** The whole tree of the scenario: its name paths. */
  lemma ThreeFileNames()
    ensures var b := RemoteDir(false, false, [RemoteFile("file2.txt")]);
            var a := RemoteDir(false, false, [RemoteFile("file1.txt"), RemoteSub("b", b)]);
            var c := RemoteDir(false, false, [RemoteFile("file3.txt")]);
            var tree := RemoteDir(false, false, [RemoteSub("a", a), RemoteSub("c", c)]);
            && ReachedFiles(tree) == [["a", "file1.txt"], ["a", "b", "file2.txt"], ["c", "file3.txt"]]
            && VisitedDirs(tree) == [[], ["a"], ["a", "b"], ["c"]]
  {
    var b := RemoteDir(false, false, [RemoteFile("file2.txt")]);
    var a := RemoteDir(false, false, [RemoteFile("file1.txt"), RemoteSub("b", b)]);
    var c := RemoteDir(false, false, [RemoteFile("file3.txt")]);
    ThreeFileNamesA();
    OneFileDir("file3.txt");
    ShortListing(RemoteSub("a", a), RemoteSub("c", c));
    UnderShort("a", ["file1.txt"], ["b", "file2.txt"]);
    UnderShort("a", [], ["b"]);
    UnderShort("c", ["file3.txt"], []);
    assert ["a"] + ["file1.txt"] == ["a", "file1.txt"];
    assert ["a"] + ["b", "file2.txt"] == ["a", "b", "file2.txt"];
    assert ["c"] + ["file3.txt"] == ["c", "file3.txt"];
    assert ["a"] + [] == ["a"];
    assert ["a"] + ["b"] == ["a", "b"];
    assert ["c"] + [] == ["c"];
  }

  /** Joining one name below a base. */
  lemma JoinOne(base: Path, x: string)
    ensures JoinAll(base, [x]) == base + "/" + x
  {
    assert [x][1..] == [];
  }

  /** Joining two names below a base. */
  lemma JoinTwo(base: Path, x: string, y: string)
    ensures JoinAll(base, [x, y]) == base + "/" + x + "/" + y
  {
    assert [x, y][1..] == [y];
    JoinOne(Join(base, x), y);
  }

  /** Joining three names below a base. */
  lemma JoinThree(base: Path, x: string, y: string, z: string)
    ensures JoinAll(base, [x, y, z]) == base + "/" + x + "/" + y + "/" + z
  {
    assert [x, y, z][1..] == [y, z];
    JoinTwo(Join(base, x), y, z);
  }

  /** The scenario's file name paths joined below a base `/r` or `/l`. */
  lemma ThreeFileJoins(base: Path)
    requires base == "/r" || base == "/l"
    ensures JoinAll(base, ["a", "file1.txt"]) == base + "/a/file1.txt"
    ensures JoinAll(base, ["a", "b", "file2.txt"]) == base + "/a/b/file2.txt"
    ensures JoinAll(base, ["c", "file3.txt"]) == base + "/c/file3.txt"
  {
    JoinTwo(base, "a", "file1.txt");
    JoinThree(base, "a", "b", "file2.txt");
    JoinTwo(base, "c", "file3.txt");
    assert base + "/" + "a" + "/" + "file1.txt" == base + "/a/file1.txt";
    assert base + "/" + "a" + "/" + "b" + "/" + "file2.txt" == base + "/a/b/file2.txt";
    assert base + "/" + "c" + "/" + "file3.txt" == base + "/c/file3.txt";
  }

  /** The scenario's file name paths placed below `/r` and `/l`. */
  lemma ThreeFilePairs()
    ensures PairsAt("/r", "/l", [["a", "file1.txt"], ["a", "b", "file2.txt"], ["c", "file3.txt"]])
            == [("/r/a/file1.txt", "/l/a/file1.txt"), ("/r/a/b/file2.txt", "/l/a/b/file2.txt"), ("/r/c/file3.txt", "/l/c/file3.txt")]
  {
    var names := [["a", "file1.txt"], ["a", "b", "file2.txt"], ["c", "file3.txt"]];
    var ps := PairsAt("/r", "/l", names);
    assert ps == [(JoinAll("/r", names[0]), JoinAll("/l", names[0])),
                  (JoinAll("/r", names[1]), JoinAll("/l", names[1])),
                  (JoinAll("/r", names[2]), JoinAll("/l", names[2]))];
    ThreeFileJoins("/r");
    ThreeFileJoins("/l");
    ThreeFileStrings();
  }

  /** The scenario's paths spelt out. */
  lemma ThreeFileStrings()
    ensures "/r" + "/a/file1.txt" == "/r/a/file1.txt" && "/l" + "/a/file1.txt" == "/l/a/file1.txt"
    ensures "/r" + "/a/b/file2.txt" == "/r/a/b/file2.txt" && "/l" + "/a/b/file2.txt" == "/l/a/b/file2.txt"
    ensures "/r" + "/c/file3.txt" == "/r/c/file3.txt" && "/l" + "/c/file3.txt" == "/l/c/file3.txt"
  {
  }

  /** The scenario's directory name paths placed below `/l`. */
  lemma ThreeFileDirs()
    ensures DirsAt("/l", [[], ["a"], ["a", "b"], ["c"]]) == ["/l", "/l/a", "/l/a/b", "/l/c"]
  {
    var ds := DirsAt("/l", [[], ["a"], ["a", "b"], ["c"]]);
    JoinOne("/l", "a");
    JoinTwo("/l", "a", "b");
    JoinOne("/l", "c");
    assert ds[0] == "/l";
    assert ds[1] == "/l/a";
    assert ds[2] == "/l/a/b";
    assert ds[3] == "/l/c";
  }

  /**
   * The same scenario downloaded from `/r` into `/l`: three tasks, and the
   * local directories created in the order root, `a`, `a/b`, `c`.
   */
  lemma ThreeFileScenario()
    ensures var tree := RemoteDir(false, false, [
              RemoteSub("a", RemoteDir(false, false, [RemoteFile("file1.txt"), RemoteSub("b", RemoteDir(false, false, [RemoteFile("file2.txt")]))])),
              RemoteSub("c", RemoteDir(false, false, [RemoteFile("file3.txt")]))]);
            var t := DownloadWalk("/r", "/l", tree);
            && Tasks(t) == [("/r/a/file1.txt", "/l/a/file1.txt"), ("/r/a/b/file2.txt", "/l/a/b/file2.txt"), ("/r/c/file3.txt", "/l/c/file3.txt")]
            && LocalMkdirs(t) == ["/l", "/l/a", "/l/a/b", "/l/c"]
  {
    var b := RemoteDir(false, false, [RemoteFile("file2.txt")]);
    var a := RemoteDir(false, false, [RemoteFile("file1.txt"), RemoteSub("b", b)]);
    var c := RemoteDir(false, false, [RemoteFile("file3.txt")]);
    var tree := RemoteDir(false, false, [RemoteSub("a", a), RemoteSub("c", c)]);
    DownloadTasksAreReachedFiles("/r", "/l", tree);
    DownloadCreatesVisitedDirs("/r", "/l", tree);
    ThreeFileNames();
    ThreeFilePairs();
    ThreeFileDirs();
  }
}
