/**
 * The older launcher run.js: its own process runner, the HTTPS switch that
 * selects the `ng serve` SSL arguments and the URL scheme, clone-and-install
 * with npm, and `main` with or without docker-compose.
 *
 * As for run.ts, processes are not spawned: the code each one closes with, the
 * existing directories and the success of each file write are oracles in
 * `LegacyEnv`, and `main` is modelled by the effects it issues and whether its
 * promise resolves.
 */
module LegacyLauncher {
  import opened Common
  import Text
  import Utils

  /** The values of configuration.js the launcher reads, with `__dirname` and `process.cwd()`. */
  datatype LegacyConfig = LegacyConfig(
    root: string,
    processCwd: string,
    useCompose: bool,
    enableHttps: bool,
    publicAddress: string,
    serverPort: int,
    viewerPort: int,
    repoPort: int,
    sslKeyFile: string,
    sslCertFile: string)

  /** A spawned process: command, arguments, working directory, and whether stdout is suppressed. */
  datatype Process = Process(command: string, args: seq<Utils.Arg>, cwd: string, silent: bool)

  /** `execute(command, args, options, silent)`: options default to the process's cwd, `silent` to true. */
  function Exec(cfg: LegacyConfig, command: string, args: seq<Utils.Arg>, cwd: Option<string>, silent: Option<bool>)
    : (p: Process)
    ensures cwd.None? ==> p.cwd == cfg.processCwd
    ensures silent.None? ==> p.silent
  {
    Process(command, args, cwd.GetOr(cfg.processCwd), silent.GetOr(true))
  }

  // ---------------------------------------------------------------- the runner

  /** A console line of the runner: a chunk as received, or the completion line. */
  datatype LogLine = Output(text: string) | Closed(command: string, args: seq<Utils.Arg>, code: Option<int>)

  /** The lines the stream listeners print, in arrival order: stdout only when not silent, stderr always, untrimmed. */
  function Printed(silent: bool, chunks: seq<Utils.Chunk>): (lines: seq<LogLine>)
    ensures |lines| <= |chunks|
    ensures forall i :: 0 <= i < |lines| ==> lines[i].Output?
    decreases |chunks|
  {
    if chunks == [] then []
    else
      var c := chunks[|chunks| - 1];
      Printed(silent, chunks[..|chunks| - 1]) + (if Utils.Forwards(silent, c.stream) then [Output(c.data)] else [])
  }

  /** Not silent: every chunk of both streams is printed as received, in order. */
  lemma {:induction false} PrintedVerbose(chunks: seq<Utils.Chunk>)
    ensures |Printed(false, chunks)| == |chunks|
    ensures forall i :: 0 <= i < |chunks| ==> Printed(false, chunks)[i] == Output(chunks[i].data)
    decreases |chunks|
  {
    if chunks != [] {
      PrintedVerbose(chunks[..|chunks| - 1]);
    }
  }

  /** Silent: exactly the stderr chunks are printed. */
  lemma {:induction false} PrintedSilent(chunks: seq<Utils.Chunk>)
    ensures Printed(true, chunks) == Printed(false, Utils.StderrOnly(chunks))
    decreases |chunks|
  {
    if chunks != [] {
      var init := chunks[..|chunks| - 1];
      var c := chunks[|chunks| - 1];
      PrintedSilent(init);
      if c.stream == Utils.Stderr {
        assert Utils.StderrOnly(chunks) == Utils.StderrOnly(init) + [c];
        assert (Utils.StderrOnly(init) + [c])[..|Utils.StderrOnly(init)|] == Utils.StderrOnly(init);
      } else {
        assert Utils.StderrOnly(chunks) == Utils.StderrOnly(init);
      }
    }
  }

  /** `code === 0 ? resolve('Success') : reject('Failure')`. */
  function Classify(code: Option<int>): Outcome
  {
    if code == Some(0) then Success else Failure
  }

  /**
   * Only exit code 0 is a success here; a process ended by a signal (null
   * code) is a failure, which is the one case where the runner of
   * modules/utils.ts decides differently.
   */
  lemma ClassifyContrast(code: Option<int>)
    ensures Classify(code) == Success <==> code == Some(0)
    ensures Classify(code) != Utils.Classify(code) <==> code.None?
  {
  }

  /** `execute`: prints what the listeners receive, one completion line on `close`, and settles by the code. */
  method Execute(p: Process, chunks: seq<Utils.Chunk>, code: Option<int>) returns (log: seq<LogLine>, result: Outcome)
    ensures log == Printed(p.silent, chunks) + [Closed(p.command, p.args, code)]
    ensures result == Success <==> code == Some(0)
  {
    log := [];
    var i := 0;
    while i < |chunks|
      invariant 0 <= i <= |chunks|
      invariant log == Printed(p.silent, chunks[..i])
    {
      var c := chunks[i];
      assert chunks[..i + 1][..i] == chunks[..i] && chunks[..i + 1][i] == c;
      if !p.silent || c.stream == Utils.Stderr {
        log := log + [Output(c.data)];
      }
      i := i + 1;
    }
    assert chunks[..|chunks|] == chunks;
    log := log + [Closed(p.command, p.args, code)];
    result := Classify(code);
  }

  // ---------------------------------------------------------------- the HTTPS switch

  /** `SSL_ARGS`: none without HTTPS, else the certificate and key files for `ng serve`. */
  function SslArgs(cfg: LegacyConfig): (args: seq<string>)
    ensures args == [] <==> !cfg.enableHttps
    ensures cfg.enableHttps ==>
      |args| == 6 && args[3] == cfg.sslCertFile && args[5] == cfg.sslKeyFile
      && args[0] == "--ssl" && args[1] == "true" && args[2] == "--ssl-cert" && args[4] == "--ssl-key"
  {
    if cfg.enableHttps then ["--ssl", "true", "--ssl-cert", cfg.sslCertFile, "--ssl-key", cfg.sslKeyFile] else []
  }

  function Scheme(cfg: LegacyConfig): string
  {
    if cfg.enableHttps then "https" else "http"
  }

  /** A URL of the generated environment files: scheme, public address, port, path. */
  function Url(cfg: LegacyConfig, port: int, path: string): string
  {
    Scheme(cfg) + "://" + cfg.publicAddress + ":" + Text.IntToDecimal(port) + path
  }

  predicate StartsWith(s: string, prefix: string)
  {
    |prefix| <= |s| && s[..|prefix|] == prefix
  }

  /** Every generated URL is an `https` URL exactly when HTTPS is enabled, and an `http` one otherwise. */
  lemma UrlScheme(cfg: LegacyConfig, port: int, path: string)
    ensures StartsWith(Url(cfg, port, path), "https://") <==> cfg.enableHttps
    ensures StartsWith(Url(cfg, port, path), "http://") <==> !cfg.enableHttps
  {
    var u := Url(cfg, port, path);
    if cfg.enableHttps {
      assert u[..8] == "https://";
      assert u[4] == 's' && "http://"[4] == ':';
    } else {
      assert u[..7] == "http://";
      assert u[4] == ':' && "https://"[4] == 's';
    }
  }

  datatype SslPaths = SslPaths(privateKey: string, certificate: string)

  /** The HTTPS part of the server's `Express` settings. */
  datatype ServerSettings = ServerSettings(host: string, port: int, publicIp: string, enableHttps: bool,
                                           sslPaths: Option<SslPaths>)

  function Settings(cfg: LegacyConfig): (s: ServerSettings)
    ensures s.enableHttps == cfg.enableHttps
    ensures s.sslPaths.Some? <==> cfg.enableHttps
    ensures s.sslPaths.Some? ==> s.sslPaths.value == SslPaths(cfg.sslKeyFile, cfg.sslCertFile)
  {
    ServerSettings("0.0.0.0", cfg.serverPort, cfg.publicAddress, cfg.enableHttps,
                   if cfg.enableHttps then Some(SslPaths(cfg.sslKeyFile, cfg.sslCertFile)) else None)
  }

  // ---------------------------------------------------------------- the run

  /** What the environment answers during one run. */
  datatype LegacyEnv = LegacyEnv(dirs: set<string>, writeOk: string -> bool, exitCode: Process -> Option<int>)

  datatype Effect =
    | Spawn(process: Process)
    | WriteRepoEnvironment(path: string, viewerUrl: string, serverUrl: string)
    | WriteServerConfig(path: string, settings: ServerSettings)
    | WriteViewerEnvironment(path: string, serverUrl: string, repoUrl: string)

  /** How `main`'s promise settles. */
  datatype Settled = Resolved | Rejected

  predicate Succeeds(env: LegacyEnv, p: Process)
  {
    Classify(env.exitCode(p)) == Success
  }

  predicate AllSucceed(env: LegacyEnv, ps: seq<Process>)
  {
    forall p :: p in ps ==> Succeeds(env, p)
  }

  function Spawns(ps: seq<Process>): (effects: seq<Effect>)
    ensures |effects| == |ps| && forall i :: 0 <= i < |ps| ==> effects[i] == Spawn(ps[i])
  {
    seq(|ps|, i requires 0 <= i < |ps| => Spawn(ps[i]))
  }

  function CloneProcess(cfg: LegacyConfig, repository: string): Process
  {
    Exec(cfg, "git", Utils.Strs(["clone", "--recursive", "https://github.com/Kompakkt/" + repository + ".git", repository]),
         None, None)
  }

  function InstallProcess(cfg: LegacyConfig, repository: string): Process
  {
    Exec(cfg, "npm", Utils.Strs(["install", "--no-optional", "--quiet", "--no-progress"]),
         Some(PathJoin(cfg.root, repository)), None)
  }

  /** `cloneAndInstall(repository)`: the clone only for a missing directory; the install unless that clone failed. */
  function CloneAndInstall(cfg: LegacyConfig, env: LegacyEnv, repository: string): (effects: seq<Effect>)
    ensures Spawn(CloneProcess(cfg, repository)) in effects <==> PathJoin(cfg.root, repository) !in env.dirs
    ensures Spawn(InstallProcess(cfg, repository)) in effects <==>
      PathJoin(cfg.root, repository) in env.dirs || Succeeds(env, CloneProcess(cfg, repository))
  {
    var clone := CloneProcess(cfg, repository);
    var install := InstallProcess(cfg, repository);
    assert clone.command[0] == 'g' && install.command[0] == 'n';
    if PathJoin(cfg.root, repository) in env.dirs then [Spawn(install)]
    else if !Succeeds(env, clone) then [Spawn(clone)]
    else [Spawn(clone), Spawn(install)]
  }

  /** `installPackages()`: Viewer, Repo and Server, side by side. */
  function InstallEffects(cfg: LegacyConfig, env: LegacyEnv): seq<Effect>
  {
    CloneAndInstall(cfg, env, "Viewer") + CloneAndInstall(cfg, env, "Repo") + CloneAndInstall(cfg, env, "Server")
  }

  function RepoEnvironmentPath(cfg: LegacyConfig): string
  {
    PathJoin(PathJoin(PathJoin(PathJoin(cfg.root, "Repo"), "src"), "environments"), "environment.ts")
  }

  function ViewerEnvironmentPath(cfg: LegacyConfig): string
  {
    PathJoin(PathJoin(PathJoin(PathJoin(cfg.root, "Viewer"), "src"), "environments"), "environment.ts")
  }

  function ServerConfigPath(cfg: LegacyConfig): string
  {
    PathJoin(PathJoin(PathJoin(cfg.root, "Server"), "src"), "config.json")
  }

  /** `createConfigurationFiles()`: the Repo environment, the server config, the Viewer environment. */
  function ConfigurationWrites(cfg: LegacyConfig): seq<Effect>
  {
    [WriteRepoEnvironment(RepoEnvironmentPath(cfg), Url(cfg, cfg.viewerPort, "/index.html"), Url(cfg, cfg.serverPort, "/")),
     WriteServerConfig(ServerConfigPath(cfg), Settings(cfg)),
     WriteViewerEnvironment(ViewerEnvironmentPath(cfg), Url(cfg, cfg.serverPort, "/"), Url(cfg, cfg.repoPort, "/"))]
  }

  predicate ConfigurationOk(cfg: LegacyConfig, env: LegacyEnv)
  {
    env.writeOk(RepoEnvironmentPath(cfg)) && env.writeOk(ServerConfigPath(cfg)) && env.writeOk(ViewerEnvironmentPath(cfg))
  }

  function PullProcesses(cfg: LegacyConfig): seq<Process>
  {
    [Exec(cfg, "docker", Utils.Strs(["pull", "mongo:4.4"]), Some(cfg.processCwd), Some(false)),
     Exec(cfg, "docker", Utils.Strs(["pull", "redis:6.2-alpine"]), Some(cfg.processCwd), Some(false))]
  }

  function ComposeProcess(cfg: LegacyConfig): Process
  {
    Exec(cfg, "docker-compose", Utils.Strs(["up"]), Some(cfg.processCwd), Some(false))
  }

  function ServeProcess(cfg: LegacyConfig, dir: string, port: int): Process
  {
    Exec(cfg, "ng", Utils.Strs(["serve", "--port"]) + [Utils.Num(port)] + Utils.Strs(["--disable-host-check"] + SslArgs(cfg)),
         Some(PathJoin(cfg.root, dir)), Some(false))
  }

  /** `runRepo()`, `runViewer()`, `runServer()`. */
  function ApplicationProcesses(cfg: LegacyConfig): seq<Process>
  {
    [ServeProcess(cfg, "Repo", cfg.repoPort), ServeProcess(cfg, "Viewer", cfg.viewerPort),
     Exec(cfg, "npm", Utils.Strs(["run", "dev"]), Some(PathJoin(cfg.root, "Server")), Some(false))]
  }

  /** What is launched after the configuration files, and how `main` then settles. */
  function LaunchPart(cfg: LegacyConfig, env: LegacyEnv): (seq<Effect>, Settled)
  {
    if cfg.useCompose then
      if !AllSucceed(env, PullProcesses(cfg)) then (Spawns(PullProcesses(cfg)), Rejected)
      else
        var launched := [ComposeProcess(cfg)] + ApplicationProcesses(cfg);
        (Spawns(PullProcesses(cfg)) + Spawns(launched), if AllSucceed(env, launched) then Resolved else Rejected)
    else (Spawns(ApplicationProcesses(cfg)), if AllSucceed(env, ApplicationProcesses(cfg)) then Resolved else Rejected)
  }

  /** The effects of one run of `main()`, in order, and how its promise settles. */
  function LegacyRun(cfg: LegacyConfig, env: LegacyEnv): (seq<Effect>, Settled)
  {
    var prefix := InstallEffects(cfg, env) + ConfigurationWrites(cfg);
    if !ConfigurationOk(cfg, env) then (prefix, Rejected)
    else (prefix + LaunchPart(cfg, env).0, LaunchPart(cfg, env).1)
  }

  /** `main()` as the sequential driver. */
  method RunLegacy(cfg: LegacyConfig, env: LegacyEnv) returns (effects: seq<Effect>, settled: Settled)
    ensures (effects, settled) == LegacyRun(cfg, env)
  {
    effects := CloneAndInstall(cfg, env, "Viewer");
    effects := effects + CloneAndInstall(cfg, env, "Repo");
    effects := effects + CloneAndInstall(cfg, env, "Server");

    effects := effects + ConfigurationWrites(cfg);
    if !ConfigurationOk(cfg, env) {
      settled := Rejected;
      return;
    }

    var launch: seq<Effect>;
    if cfg.useCompose {
      launch := Spawns(PullProcesses(cfg));
      if !AllSucceed(env, PullProcesses(cfg)) {
        effects := effects + launch;
        settled := Rejected;
        return;
      }
      var launched := [ComposeProcess(cfg)] + ApplicationProcesses(cfg);
      launch := launch + Spawns(launched);
      settled := if AllSucceed(env, launched) then Resolved else Rejected;
    } else {
      launch := Spawns(ApplicationProcesses(cfg));
      settled := if AllSucceed(env, ApplicationProcesses(cfg)) then Resolved else Rejected;
    }
    effects := effects + launch;
  }

  // ---------------------------------------------------------------- properties of a run

  /**
   * A failed install does not stop `main`: whatever the clones and installs do,
   * the configuration files are written and everything after them, and how
   * `main` settles, depend only on the writes and on the pull and application
   * processes.
   */
  lemma InstallFailureSwallowed(cfg: LegacyConfig, env: LegacyEnv, env': LegacyEnv)
    requires env'.writeOk == env.writeOk
    requires forall p :: p in PullProcesses(cfg) || p in ApplicationProcesses(cfg) || p == ComposeProcess(cfg) ==>
      env'.exitCode(p) == env.exitCode(p)
    ensures var n := |InstallEffects(cfg, env)|;
      var n' := |InstallEffects(cfg, env')|;
      && LegacyRun(cfg, env).0[n..] == LegacyRun(cfg, env').0[n'..]
      && LegacyRun(cfg, env).1 == LegacyRun(cfg, env').1
      && LegacyRun(cfg, env).0[n..n + 3] == ConfigurationWrites(cfg)
  {
    LaunchUnaffected(cfg, env, env');
    var writes := ConfigurationWrites(cfg);
    var ok := ConfigurationOk(cfg, env);
    assert ok == ConfigurationOk(cfg, env');
    RunShape(cfg, env);
    RunShape(cfg, env');
    SplitAfter(InstallEffects(cfg, env), writes, LaunchPart(cfg, env).0, ok);
    SplitAfter(InstallEffects(cfg, env'), writes, LaunchPart(cfg, env).0, ok);
  }

  lemma LaunchUnaffected(cfg: LegacyConfig, env: LegacyEnv, env': LegacyEnv)
    requires forall p :: p in PullProcesses(cfg) || p in ApplicationProcesses(cfg) || p == ComposeProcess(cfg) ==>
      env'.exitCode(p) == env.exitCode(p)
    ensures LaunchPart(cfg, env) == LaunchPart(cfg, env')
  {
    assert AllSucceed(env, PullProcesses(cfg)) == AllSucceed(env', PullProcesses(cfg));
    assert AllSucceed(env, ApplicationProcesses(cfg)) == AllSucceed(env', ApplicationProcesses(cfg));
    var launched := [ComposeProcess(cfg)] + ApplicationProcesses(cfg);
    assert AllSucceed(env, launched) == AllSucceed(env', launched);
  }

  lemma RunShape(cfg: LegacyConfig, env: LegacyEnv)
    ensures LegacyRun(cfg, env).0 == if ConfigurationOk(cfg, env)
      then InstallEffects(cfg, env) + ConfigurationWrites(cfg) + LaunchPart(cfg, env).0
      else InstallEffects(cfg, env) + ConfigurationWrites(cfg)
    ensures LegacyRun(cfg, env).1 == if ConfigurationOk(cfg, env) then LaunchPart(cfg, env).1 else Rejected
  {
  }

  lemma SplitAfter<T>(head: seq<T>, middle: seq<T>, tail: seq<T>, extended: bool)
    ensures var whole := if extended then head + middle + tail else head + middle;
      && whole[|head|..] == (if extended then middle + tail else middle)
      && whole[|head|..|head| + |middle|] == middle
  {
    if extended {
      assert head + middle + tail == head + (middle + tail);
    }
  }

  /**
   * With docker-compose, the two images are pulled first, and compose and the
   * three applications start only when both pulls succeed; without it, exactly
   * the three applications start and no docker command runs.
   */
  lemma ComposeOrder(cfg: LegacyConfig, env: LegacyEnv)
    requires ConfigurationOk(cfg, env)
    ensures var launch := LaunchPart(cfg, env).0;
      && (cfg.useCompose ==>
            launch[..2] == Spawns(PullProcesses(cfg))
            && (Spawn(ComposeProcess(cfg)) in launch <==> AllSucceed(env, PullProcesses(cfg))))
      && (!cfg.useCompose ==>
            launch == Spawns(ApplicationProcesses(cfg))
            && forall e :: e in launch ==> e.process.command != "docker" && e.process.command != "docker-compose")
  {
    if cfg.useCompose {
      var launched := [ComposeProcess(cfg)] + ApplicationProcesses(cfg);
      if AllSucceed(env, PullProcesses(cfg)) {
        assert LaunchPart(cfg, env).0[2] == Spawn(ComposeProcess(cfg));
      } else {
        assert ComposeProcess(cfg).command[6] == '-';
        assert forall p :: p in PullProcesses(cfg) ==> |p.command| == 6;
      }
    } else {
      assert "ng"[0] == 'n' && "npm"[0] == 'n' && "docker"[0] == 'd' && "docker-compose"[0] == 'd';
    }
  }
}
