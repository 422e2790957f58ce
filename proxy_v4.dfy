/**
 * The proxy installer: it reads the v4 keys over SSH, stops if a proxy is
 * already installed, looks up the v4 database container, writes its id into
 * the two proxy templates, uploads the proxy directory and starts it.
 */
module ProxyV4 {
  import opened JsString
  import opened RemoteExec
  import opened Transfer

  // ---------------------------------------------------------------------------
  // The templates
  // ---------------------------------------------------------------------------

  /** The placeholder `setup` replaces in `docker-compose.yml` and `nginx.conf`. */
  const Placeholder: string := "container_id"

  /** Occurrences of the placeholder cannot overlap: only its first letter is a `c`. */
  lemma PlaceholderBorderFree()
    ensures BorderFree(Placeholder)
  {
    forall k | 0 < k < |Placeholder|
      ensures Placeholder[k..] != Placeholder[..|Placeholder| - k]
    {
      assert Placeholder[..|Placeholder| - k][0] == 'c';
      assert Placeholder[k..][0] == Placeholder[k] != 'c';
    }
  }

  /** `content.replace(/container_id/g, id)`. */
  function Substitute(template: string, id: string): string
  {
    ReplaceAll(template, Placeholder, id)
  }

  /**
   * Every occurrence of the placeholder becomes the id and all text between
   * occurrences is kept: a template made of placeholder-free parts joined by
   * the placeholder becomes the same parts joined by the id.
   */
  lemma SubstituteEvery(parts: seq<string>, id: string)
    requires parts != []
    requires forall i :: 0 <= i < |parts| ==> Free(parts[i], Placeholder)
    ensures Substitute(Intercalate(parts, Placeholder), id) == Intercalate(parts, id)
  {
    PlaceholderBorderFree();
    ReplaceAllTemplate(parts, Placeholder, id);
  }

  /** A template without the placeholder is written back unchanged. */
  lemma SubstitutePlain(template: string, id: string)
    requires Free(template, Placeholder)
    ensures Substitute(template, id) == template
  {
    ReplaceAllFree(template, Placeholder, id);
  }

  // ---------------------------------------------------------------------------
  // Commands
  // ---------------------------------------------------------------------------

  const AppKeyCommand: string := "docker exec coolify printenv APP_KEY"
  const DbPasswordCommand: string := "docker exec coolify printenv DB_PASSWORD"
  const V3KeyCommand: string := "docker exec coolify printenv COOLIFY_SECRET_KEY"
  const ContainerIdCommand: string := "docker ps --filter \"name=coolify-db\" --format \"{{.ID}}\""
  /** As written, `start` changes into `/root/v4-migrate`, not the directory `install` uploads to. */
  const StartCommand: string := "cd /root/v4-migrate && docker compose up --build -d"

  /** The local proxy directory, relative to the migrator's sources, and where it goes on v4. */
  const ProxySource: Path := "v4-proxy"
  const ProxyTarget: Path := "/root/v4-proxy"

  // ---------------------------------------------------------------------------
  // `init`
  // ---------------------------------------------------------------------------

  /** What the installer does, in order. */
  datatype Step =
    | Ran(command: string)  // a command issued over the v4 connection
    | Checked               // asked whether the proxy directory exists on v4
    | Configured(id: string) // rewrote both templates with the container id
    | Uploaded              // uploaded the proxy directory

  /** How `init` ends. */
  datatype InitResult =
    | Started               // every step ran and `start` resolved
    | AlreadyInstalled      // the proxy exists: the process exits with status 0
    | NoContainer           // the container id is empty: logged and returned
    | Failed(reason: Reason) // an awaited promise rejected
    | Stuck                 // an awaited promise never settles

  /** What the v4 host answers: one exec result per command, the existence check, and the local proxy tree. */
  datatype V4Host = V4Host(appKey: Exec, dbPassword: Exec, proxyInstalled: bool, containerId: Exec, proxyFiles: LocalDir, start: Exec)

  /** The steps `init` takes and how it ends; `id` is the container id once `setup` ran. */
  datatype InitRun = InitRun(steps: seq<Step>, result: InitResult, id: Option<string>)

  /** `getV4Info`: `None` when `init` goes on, the result otherwise. */
  function InfoStops(h: V4Host): Option<InitResult>
  {
    var key := Classify(ValueHandler, h.appKey);
    if key.Pending? then Some(Stuck)
    else if key.Rejected? then Some(Failed(key.reason))
    else if Falsy(key.value) then None
    else
      var db := Classify(ValueHandler, h.dbPassword);
      if db.Pending? then Some(Stuck)
      else if db.Rejected? then Some(Failed(db.reason))
      else None
  }

  /** The commands `getV4Info` issues. */
  function InfoSteps(h: V4Host): seq<Step>
  {
    var key := Classify(ValueHandler, h.appKey);
    if key.Resolved? && !Falsy(key.value) then [Ran(AppKeyCommand), Ran(DbPasswordCommand)] else [Ran(AppKeyCommand)]
  }

  function Initialization(h: V4Host): InitRun
  {
    var info := InfoSteps(h);
    var stop := InfoStops(h);
    if stop.Some? then InitRun(info, stop.value, None)
    else if h.proxyInstalled then InitRun(info + [Checked], AlreadyInstalled, None)
    else Lookup(h, info + [Checked, Ran(ContainerIdCommand)])
  }

  /** `init` from the container lookup on, `before` being the steps up to and including it. */
  function Lookup(h: V4Host, before: seq<Step>): InitRun
  {
    var c := Classify(ValueHandler, h.containerId);
    if c.Pending? then InitRun(before, Stuck, None)
    else if c.Rejected? then InitRun(before, Failed(c.reason), None)
    else if Falsy(c.value) then InitRun(before, NoContainer, None)
    else Launch(h, before, c.value.value)
  }

  /** How the `start` promise settles, as `init` reports it. */
  function StartResult(h: V4Host): InitResult
  {
    var s := Classify(StartHandler, h.start);
    if s.Pending? then Stuck
    else if s.Rejected? then Failed(s.reason)
    else Started
  }

  /** `setup`, `install` and `start`, once the container id `id` is known. */
  function Launch(h: V4Host, before: seq<Step>, id: string): InitRun
  {
    InitRun(before + [Configured(id), Uploaded, Ran(StartCommand)], StartResult(h), Some(id))
  }

  /** From the container lookup on, `init` either stops at once or takes the three last steps. */
  lemma LookupSteps(h: V4Host, before: seq<Step>)
    ensures var r := Lookup(h, before);
            || (r.id.None? && r.steps == before)
            || (r.id.Some? && r.steps == before + [Configured(r.id.value), Uploaded, Ran(StartCommand)])
  {
  }

  /** Every step `init` may take, in the one order it takes them. */
  function InitOrder(h: V4Host, id: string): seq<Step>
  {
    InfoSteps(h) + [Checked, Ran(ContainerIdCommand), Configured(id), Uploaded, Ran(StartCommand)]
  }

  /**
   * `init` runs its steps strictly in order and stops somewhere along the
   * way: what it did is always a prefix of the full order.
   */
  lemma InitInOrder(h: V4Host)
    ensures var r := Initialization(h);
            var id := if r.id.Some? then r.id.value else "";
            |r.steps| <= |InitOrder(h, id)| && r.steps == InitOrder(h, id)[..|r.steps|]
  {
    var r := Initialization(h);
    var id := if r.id.Some? then r.id.value else "";
    var info := InfoSteps(h);
    var full := InitOrder(h, id);
    if InfoStops(h).Some? {
      assert full[..|info|] == info;
    } else if h.proxyInstalled {
      assert full[..|info| + 1] == info + [Checked];
    } else {
      var before := info + [Checked, Ran(ContainerIdCommand)];
      LookupSteps(h, before);
      assert full[..|before|] == before;
    }
  }

  /**
   * `setup` runs, followed by the upload and `start`, exactly when the
   * container id was found non-empty; an empty id stops `init` before any
   * template is touched.
   */
  lemma InitStopsWithoutContainer(h: V4Host)
    ensures var r := Initialization(h);
            && (Uploaded in r.steps <==> r.id.Some?)
            && (r.id.Some? ==> r.id.value != "" && Configured(r.id.value) in r.steps)
    ensures InfoStops(h).None? && !h.proxyInstalled && Classify(ValueHandler, h.containerId) == Resolved(Some(""))
            ==> var r := Initialization(h);
                && r.result == NoContainer && r.id.None? && Uploaded !in r.steps
                && r.steps[|r.steps| - 1] == Ran(ContainerIdCommand)
  {
  }

  /**
   * `init` starts the proxy exactly when every awaited call settled the
   * right way: both keys (or an empty first one), no proxy yet, a non-empty
   * container id, and a `start` that exits with 0.
   */
  lemma InitStartsIff(h: V4Host)
    ensures Initialization(h).result == Started
            <==> && InfoStops(h).None?
                 && !h.proxyInstalled
                 && Classify(ValueHandler, h.containerId).Resolved?
                 && !Falsy(Classify(ValueHandler, h.containerId).value)
                 && Classify(StartHandler, h.start).Resolved?
  {
  }

  /** A channel error on the first command leaves `init` waiting for ever after that one command. */
  lemma InitHangsOnChannelError(h: V4Host, err: string)
    requires h.appKey == ChannelError(err)
    ensures Initialization(h) == InitRun([Ran(AppKeyCommand)], Stuck, None)
  {
  }

  /** The container id written into the templates is the trimmed output of the lookup. */
  lemma InitUsesTrimmedId(h: V4Host)
    requires Initialization(h).id.Some?
    ensures h.containerId.Stream? && Initialization(h).id.value == Trim(Output(h.containerId.chunks))
  {
  }

  /**
   * `install` resolves through the upload's callback, which always fires,
   * and fires last, whatever the upload runs into.
   */
  lemma InstallResolves(files: LocalDir, dirs: set<Path>)
    ensures var t := UploadTrace(ProxySource, ProxyTarget, files, dirs, true, true).events;
            t != [] && t[|t| - 1] == OnFinish && multiset(t)[OnFinish] == 1
  {
    UploadCallsBackOnce(ProxySource, ProxyTarget, files, dirs, true);
  }

  // ---------------------------------------------------------------------------
  // The installer
  // ---------------------------------------------------------------------------

  class Proxy {
    /** What the installer did over the v4 connection and locally, in order. */
    var steps: seq<Step>
    /** Commands issued over the v3 connection. */
    var v3Commands: seq<string>
    /** The local `docker-compose.yml` and `nginx.conf` of the proxy directory. */
    var compose: string
    var nginx: string
    /** The SFTP transfer object `install` uploads with. */
    const transfer: FileTransfer

    constructor (compose: string, nginx: string, transfer: FileTransfer)
      ensures steps == [] && v3Commands == [] && this.compose == compose && this.nginx == nginx && this.transfer == transfer
    {
      steps := [];
      v3Commands := [];
      this.compose := compose;
      this.nginx := nginx;
      this.transfer := transfer;
    }

    /** One exec wrapper on the v4 connection: issue `command` and settle as `h` decides. */
    method Exec(command: string, h: Handler, e: Exec) returns (o: Outcome)
      modifies this
      ensures steps == old(steps) + [Ran(command)] && o == Classify(h, e)
      ensures v3Commands == old(v3Commands) && compose == old(compose) && nginx == old(nginx)
    {
      steps := steps + [Ran(command)];
      o := Run(h, e);
    }

    /** `getV3Decrypt`, run on the v3 connection once it is ready. */
    method GetV3Decrypt(e: Exec) returns (o: Outcome)
      modifies this
      ensures v3Commands == old(v3Commands) + [V3KeyCommand] && o == Classify(ValueHandler, e)
      ensures steps == old(steps) && compose == old(compose) && nginx == old(nginx)
    {
      v3Commands := v3Commands + [V3KeyCommand];
      o := Run(ValueHandler, e);
    }

    /** `getV4Info`: `stop` is `None` when `init` goes on. */
    method GetV4Info(h: V4Host) returns (stop: Option<InitResult>)
      modifies this
      ensures stop == InfoStops(h) && steps == old(steps) + InfoSteps(h)
      ensures v3Commands == old(v3Commands) && compose == old(compose) && nginx == old(nginx)
    {
      var key := Exec(AppKeyCommand, ValueHandler, h.appKey);
      if key.Pending? {
        return Some(Stuck);
      }
      if key.Rejected? {
        return Some(Failed(key.reason));
      }
      if Falsy(key.value) {
        return None;
      }
      var db := Exec(DbPasswordCommand, ValueHandler, h.dbPassword);
      if db.Pending? {
        return Some(Stuck);
      }
      if db.Rejected? {
        return Some(Failed(db.reason));
      }
      stop := None;
    }

    /** `setup(id)`: both templates rewritten with the container id. */
    method Setup(id: string)
      modifies this
      ensures compose == Substitute(old(compose), id) && nginx == Substitute(old(nginx), id)
      ensures steps == old(steps) + [Configured(id)] && v3Commands == old(v3Commands)
    {
      compose := Substitute(compose, id);
      nginx := Substitute(nginx, id);
      steps := steps + [Configured(id)];
    }

    /** `install`: the promise resolves from the upload's callback, so `resolved` is always true. */
    method Install(files: LocalDir) returns (resolved: bool)
      modifies this, transfer
      ensures transfer.trace == old(transfer.trace) + UploadTrace(ProxySource, ProxyTarget, files, old(transfer.remoteDirs), true, true).events
      ensures transfer.remoteDirs == UploadTrace(ProxySource, ProxyTarget, files, old(transfer.remoteDirs), true, true).dirs
      ensures steps == old(steps) + [Uploaded] && v3Commands == old(v3Commands)
      ensures compose == old(compose) && nginx == old(nginx)
      ensures resolved
    {
      InstallResolves(files, transfer.remoteDirs);
      transfer.UploadDirectory(ProxySource, ProxyTarget, files, true, true);
      resolved := transfer.trace[|transfer.trace| - 1] == OnFinish;
      steps := steps + [Uploaded];
    }

    /** `setup`, `install` and `start` in turn, with the container id `id`. */
    method Deploy(h: V4Host, id: string) returns (r: InitResult)
      modifies this, transfer
      ensures r == StartResult(h)
      ensures steps == old(steps) + [Configured(id), Uploaded, Ran(StartCommand)] && v3Commands == old(v3Commands)
      ensures compose == Substitute(old(compose), id) && nginx == Substitute(old(nginx), id)
      ensures var up := UploadTrace(ProxySource, ProxyTarget, h.proxyFiles, old(transfer.remoteDirs), true, true);
              transfer.trace == old(transfer.trace) + up.events && transfer.remoteDirs == up.dirs
    {
      Setup(id);
      var installed := Install(h.proxyFiles);
      var s := Exec(StartCommand, StartHandler, h.start);
      if s.Pending? {
        r := Stuck;
      } else if s.Rejected? {
        r := Failed(s.reason);
      } else {
        r := Started;
      }
    }

    /** `init`, from the key lookups to `start`. */
    method Init(h: V4Host) returns (r: InitResult)
      modifies this, transfer
      ensures var run := Initialization(h);
              && r == run.result
              && steps == old(steps) + run.steps
              && v3Commands == old(v3Commands)
              && (run.id.Some? ==> compose == Substitute(old(compose), run.id.value) && nginx == Substitute(old(nginx), run.id.value))
              && (run.id.None? ==> compose == old(compose) && nginx == old(nginx))
      ensures var run := Initialization(h);
              var up := UploadTrace(ProxySource, ProxyTarget, h.proxyFiles, old(transfer.remoteDirs), true, true);
              && (run.id.Some? ==> transfer.trace == old(transfer.trace) + up.events && transfer.remoteDirs == up.dirs)
              && (run.id.None? ==> transfer.trace == old(transfer.trace) && transfer.remoteDirs == old(transfer.remoteDirs))
    {
      var stop := GetV4Info(h);
      if stop.Some? {
        return stop.value;
      }
      steps := steps + [Checked];
      if h.proxyInstalled {
        return AlreadyInstalled;
      }
      var c := Exec(ContainerIdCommand, ValueHandler, h.containerId);
      if c.Pending? {
        return Stuck;
      }
      if c.Rejected? {
        return Failed(c.reason);
      }
      if Falsy(c.value) {
        return NoContainer;
      }
      r := Deploy(h, c.value.value);
    }
  }
}
