/**
 * The orchestration driver of run.ts: requirement check, certificate,
 * clone/install, configuration files, image pull, infrastructure containers,
 * a fixed settle delay, the applications, and rollback by `docker kill`.
 *
 * The driver is modelled by the effects it issues, in order, each tagged with
 * its stage. What the outside world answers is an oracle in `Env`: which
 * commands resolve, which files and directories exist, whether a write
 * succeeds, and the code each awaited process closes with. The launches run
 * concurrently in the source; here each concurrent group is issued in source
 * order and judged as a whole.
 */
module Launcher {
  import opened Common
  import Text
  import Utils
  import Ssl

  /** The constants of configuration.ts the driver reads, with `__dirname` and `process.cwd()`. */
  datatype Config = Config(
    root: string,
    processCwd: string,
    packageManager: string,
    useDocker: bool,
    skipServerInit: bool,
    silentDocker: bool,
    backendUrl: string,
    serverPort: int,
    viewerPort: int,
    repoPort: int,
    redisPort: int,
    mongoPort: Option<int>,
    mailhogSmtp: int,
    mailhogHttp: int,
    tags: DockerTags)

  datatype DockerTags = DockerTags(mongo: string, redis: string, mailhog: string)

  /** What the environment answers during one run. */
  datatype Env = Env(
    commandExists: string -> bool,
    files: map<string, string>,
    dirs: set<string>,
    ca: Ssl.CA,
    leaf: Ssl.Leaf,
    writeOk: string -> bool,
    exitCode: Utils.Options -> Option<int>)

  /** The stages of `main`, in the order it reaches them. */
  datatype Stage = Requirements | Certificate | Install | Configure | Pull | Infrastructure | Settle | Applications | Rollback

  function Rank(s: Stage): nat
  {
    match s
    case Requirements => 0
    case Certificate => 1
    case Install => 2
    case Configure => 3
    case Pull => 4
    case Infrastructure => 5
    case Settle => 6
    case Applications => 7
    case Rollback => 8
  }

  /** An effect the driver issues. `Rejected` means `main`'s promise rejects there and nothing after it runs. */
  datatype Effect =
    | ReportMissing(messages: seq<string>)
    | Cert(event: Ssl.Event)
    | Spawn(process: Utils.Options)
    | WriteEnvironment(path: string, serverUrl: string)
    | WriteServerConfig(path: string)
    | Sleep(ms: int)
    | Exit(status: int)
    | Rejected

  datatype Step = Step(stage: Stage, effect: Effect)

  function Tag(stage: Stage, effects: seq<Effect>): seq<Step>
  {
    seq(|effects|, i requires 0 <= i < |effects| => Step(stage, effects[i]))
  }

  /** A process run with the options the caller supplies, the rest defaulted. */
  function Run(cfg: Config, command: string, args: seq<Utils.Arg>, name: string, cwd: Option<string>,
               silent: Option<bool>, shell: Option<bool>): Utils.Options
  {
    Utils.Merge(Utils.PartialOptions(Some(command), Some(args), Some(name), silent, cwd, shell), cfg.processCwd)
  }

  /** Whether an awaited process settles as a success. */
  predicate Succeeds(env: Env, p: Utils.Options)
  {
    Utils.Classify(env.exitCode(p)) == Success
  }

  // ---------------------------------------------------------------- requirements

  /** `git`, the package manager, and `docker` unless the server is skipped. */
  function RequiredCommands(cfg: Config): seq<string>
  {
    ["git", cfg.packageManager] + (if cfg.skipServerInit then [] else ["docker"])
  }

  /** The commands of `cmds` that do not resolve, in their order. */
  function Missing(cmds: seq<string>, resolves: string -> bool): (missing: seq<string>)
    ensures |missing| <= |cmds|
    ensures forall c :: c in missing <==> c in cmds && !resolves(c)
    decreases |cmds|
  {
    if cmds == [] then []
    else (if resolves(cmds[0]) then [] else [cmds[0]]) + Missing(cmds[1..], resolves)
  }

  /**
   * The result keeps the list's order: the unresolved commands of a
   * concatenation are those of the first part, then those of the second,
   * and a single command is kept iff it does not resolve.
   */
  lemma MissingInOrder(a: seq<string>, b: seq<string>, resolves: string -> bool)
    ensures Missing(a + b, resolves) == Missing(a, resolves) + Missing(b, resolves)
    ensures forall c :: Missing([c], resolves) == if resolves(c) then [] else [c]
  {
    MissingAppend(a, b, resolves);
    forall c
      ensures Missing([c], resolves) == if resolves(c) then [] else [c]
    {
      MissingOne(c, resolves);
    }
  }

  lemma {:induction false} MissingAppend(a: seq<string>, b: seq<string>, resolves: string -> bool)
    ensures Missing(a + b, resolves) == Missing(a, resolves) + Missing(b, resolves)
    decreases |a|
  {
    if a != [] {
      assert (a + b)[0] == a[0] && (a + b)[1..] == a[1..] + b;
      MissingAppend(a[1..], b, resolves);
    } else {
      assert a + b == b;
    }
  }

  lemma MissingOne(c: string, resolves: string -> bool)
    ensures Missing([c], resolves) == if resolves(c) then [] else [c]
  {
    assert [c][1..] == [];
  }

  function NotFoundMessage(cmd: string): string
  {
    "Could not find '" + cmd + "'"
  }

  /** `checkRequirements()`: one message per missing command, in the order the commands are listed. */
  function CheckRequirements(cfg: Config, resolves: string -> bool): seq<string>
  {
    var missing := Missing(RequiredCommands(cfg), resolves);
    seq(|missing|, i requires 0 <= i < |missing| => NotFoundMessage(missing[i]))
  }

  /** Exactly the unresolved required commands are reported; docker is required only when the server is not skipped. */
  lemma CheckRequirementsReportsMissing(cfg: Config, resolves: string -> bool)
    ensures var msgs := CheckRequirements(cfg, resolves);
      && (forall c :: NotFoundMessage(c) in msgs <==> c in RequiredCommands(cfg) && !resolves(c))
      && (msgs == [] <==> forall c :: c in RequiredCommands(cfg) ==> resolves(c))
      && ("docker" in RequiredCommands(cfg) <==> !cfg.skipServerInit || cfg.packageManager == "docker")
  {
    var missing := Missing(RequiredCommands(cfg), resolves);
    var msgs := CheckRequirements(cfg, resolves);
    forall c
      ensures NotFoundMessage(c) in msgs <==> c in missing
    {
      if NotFoundMessage(c) in msgs {
        var i :| 0 <= i < |msgs| && msgs[i] == NotFoundMessage(c);
        MessageInjective(c, missing[i]);
      }
      if c in missing {
        var i :| 0 <= i < |missing| && missing[i] == c;
        assert msgs[i] == NotFoundMessage(c);
      }
    }
    if msgs != [] {
      assert missing[0] in missing;
    }
  }

  lemma MessageInjective(a: string, b: string)
    requires NotFoundMessage(a) == NotFoundMessage(b)
    ensures a == b
  {
    var prefix := "Could not find '";
    assert a == NotFoundMessage(a)[|prefix|..|prefix| + |a|];
    assert b == NotFoundMessage(b)[|prefix|..|prefix| + |b|];
  }

  // ---------------------------------------------------------------- install

  function GitURL(repository: string): string
  {
    "https://github.com/Kompakkt/" + repository + ".git"
  }

  function CloneProcess(cfg: Config, repository: string): Utils.Options
  {
    Run(cfg, "git", Utils.Strs(["clone", "--recursive", GitURL(repository), repository]), "installer", None, None, None)
  }

  function InstallArgs(packageManager: string): seq<string>
  {
    ["install"] + (if packageManager == "npm" then ["--no-optional", "--quiet", "--no-progress"] else [])
  }

  function InstallProcess(cfg: Config, repository: string): Utils.Options
  {
    Run(cfg, cfg.packageManager, Utils.Strs(InstallArgs(cfg.packageManager)), repository,
        Some(PathJoin(cfg.root, repository)), None, None)
  }

  /** `cloneAndInstall(repository)`: the processes it runs, and whether it resolves. */
  function CloneAndInstall(cfg: Config, env: Env, repository: string): (seq<Effect>, bool)
  {
    var clone := CloneProcess(cfg, repository);
    var install := InstallProcess(cfg, repository);
    if PathJoin(cfg.root, repository) in env.dirs then ([Spawn(install)], Succeeds(env, install))
    else if !Succeeds(env, clone) then ([Spawn(clone)], false)
    else ([Spawn(clone), Spawn(install)], Succeeds(env, install))
  }

  /** A clone is run only for a missing checkout; the install runs unless that clone failed. */
  lemma CloneOnlyWhenAbsent(cfg: Config, env: Env, repository: string)
    ensures var (effects, ok) := CloneAndInstall(cfg, env, repository);
      && (Spawn(CloneProcess(cfg, repository)) in effects <==> PathJoin(cfg.root, repository) !in env.dirs)
      && (Spawn(InstallProcess(cfg, repository)) in effects <==>
            (PathJoin(cfg.root, repository) in env.dirs || Succeeds(env, CloneProcess(cfg, repository))))
      && (ok <==> Spawn(InstallProcess(cfg, repository)) in effects && Succeeds(env, InstallProcess(cfg, repository)))
  {
    var clone := CloneProcess(cfg, repository);
    var install := InstallProcess(cfg, repository);
    assert clone.args[0] == Utils.Str("clone") && install.args[0] == Utils.Str("install");
  }

  /** Viewer and Repo, and Server unless it is skipped. */
  function Repositories(cfg: Config): seq<string>
  {
    ["Viewer", "Repo"] + (if cfg.skipServerInit then [] else ["Server"])
  }

  function InstallAll(cfg: Config, env: Env, repos: seq<string>): (seq<Effect>, bool)
    decreases |repos|
  {
    if repos == [] then ([], true)
    else
      var (first, ok) := CloneAndInstall(cfg, env, repos[0]);
      var (rest, restOk) := InstallAll(cfg, env, repos[1..]);
      (first + rest, ok && restOk)
  }

  /** `installPackages()`: never rejects; resolves true iff every repository's clone-and-install succeeded. */
  function InstallPackages(cfg: Config, env: Env): (seq<Effect>, bool)
  {
    InstallAll(cfg, env, Repositories(cfg))
  }

  lemma {:induction false} InstallAllOk(cfg: Config, env: Env, repos: seq<string>)
    ensures InstallAll(cfg, env, repos).1 <==> forall r :: r in repos ==> CloneAndInstall(cfg, env, r).1
    decreases |repos|
  {
    if repos != [] {
      InstallAllOk(cfg, env, repos[1..]);
      assert forall r :: r in repos <==> r == repos[0] || r in repos[1..];
    }
  }

  // ---------------------------------------------------------------- configuration

  /** `server_url` in the environment files: the backend URL when the server is skipped, else the local HTTPS server. */
  function ServerUrl(cfg: Config): string
  {
    if cfg.skipServerInit then cfg.backendUrl
    else "https://localhost:" + Text.IntToDecimal(cfg.serverPort) + "/"
  }

  function EnvironmentPath(cfg: Config, dir: string): string
  {
    PathJoin(PathJoin(PathJoin(cfg.root, dir), "src"), "environments.ts")
  }

  function ServerConfigPath(cfg: Config): string
  {
    PathJoin(PathJoin(PathJoin(cfg.root, "Server"), "src"), "config.json")
  }

  /** `createConfigurationFiles()`: the Repo and Viewer environment files, then the server config unless skipped. */
  function ConfigurationWrites(cfg: Config): seq<Effect>
  {
    [WriteEnvironment(EnvironmentPath(cfg, "Repo"), ServerUrl(cfg)),
     WriteEnvironment(EnvironmentPath(cfg, "Viewer"), ServerUrl(cfg))]
    + (if cfg.skipServerInit then [] else [WriteServerConfig(ServerConfigPath(cfg))])
  }

  predicate ConfigurationOk(cfg: Config, env: Env)
  {
    && env.writeOk(EnvironmentPath(cfg, "Repo"))
    && env.writeOk(EnvironmentPath(cfg, "Viewer"))
    && (!cfg.skipServerInit ==> env.writeOk(ServerConfigPath(cfg)))
  }

  // ---------------------------------------------------------------- docker

  function PullProcesses(cfg: Config): seq<Utils.Options>
  {
    [Run(cfg, "docker", Utils.Strs(["pull", "mongo:" + cfg.tags.mongo]), "DOCKER-IMAGES", None, Some(false), None),
     Run(cfg, "docker", Utils.Strs(["pull", "redis:" + cfg.tags.redis]), "DOCKER-IMAGES", None, Some(false), None),
     Run(cfg, "docker", Utils.Strs(["pull", "mailhog/mailhog:" + cfg.tags.mailhog]), "DOCKER-IMAGES", None, Some(false), None)]
  }

  /** A docker invocation whose argument list is a template string split on spaces. */
  function DockerRun(cfg: Config, template: string, name: string): Utils.Options
  {
    Run(cfg, "docker", Utils.Strs(Text.Split(template, ' ')), name, None, Some(cfg.silentDocker), Some(true))
  }

  function InfrastructureProcesses(cfg: Config): seq<Utils.Options>
  {
    [DockerRun(cfg, NamedRun(RedisContainer, RedisRest(cfg)), "REDIS"),
     DockerRun(cfg, NamedRun(MongoContainer, MongoRest(cfg)), "MONGO"),
     DockerRun(cfg, NamedRun(MailhogContainer, MailhogRest(cfg)), "MAILHOG")]
  }

  /** `runRedis`: the template after the container name. */
  function RedisRest(cfg: Config): string
  {
    LocalRun + Text.IntToDecimal(cfg.redisPort) + RedisImage + cfg.tags.redis
  }

  /** `runMongo`: the template after the container name; the host port defaults to 27017. */
  function MongoRest(cfg: Config): string
  {
    MongoRun + Text.IntToDecimal(cfg.mongoPort.GetOr(27017)) + MongoImage + cfg.tags.mongo + MongoQuiet
  }

  /** `runMailHog`: the template after the container name. */
  function MailhogRest(cfg: Config): string
  {
    var D := Text.IntToDecimal;
    LocalRun + D(cfg.mailhogSmtp) + ":" + D(cfg.mailhogSmtp) + LocalPublish + D(cfg.mailhogHttp) + ":"
    + D(cfg.mailhogHttp) + MailhogImage + cfg.tags.mailhog + MailhogBind + D(cfg.mailhogSmtp)
  }

  /** A `docker run` template naming its container: `run --name <container> <rest>`. */
  function NamedRun(container: string, rest: string): string
  {
    "run --name " + container + " " + rest
  }

  const RedisContainer := "kompakkt-redis"
  const MongoContainer := "kompakkt-mongo"
  const MailhogContainer := "kompakkt-mailhog"

  // The fixed fragments of the three `docker run` templates, between the interpolated ports and tags.
  const LocalRun := "--rm -p 127.0.0.1:"
  const RedisImage := ":6379 redis:"
  const MongoRun := "--rm -v \"$PWD/.mongo-data:/data/db\" -p 127.0.0.1:"
  const MongoImage := ":27017 mongo:"
  const MongoQuiet := " --quiet"
  const LocalPublish := " -p 127.0.0.1:"
  const MailhogImage := " mailhog/mailhog:"
  const MailhogBind := " -smtp-bind-addr :"

  const Containers := [MongoContainer, RedisContainer, MailhogContainer]

  /**
   * `shutdownContainers()`: `docker kill` of the three named containers, output
   * shown. The source writes the arguments as one space-separated string
   * and splits it; these are its words.
   */
  function KillProcess(cfg: Config): Utils.Options
  {
    Run(cfg, "docker", Utils.Strs(["kill"] + Containers), "KILL-CONTAINERS", None, Some(false), None)
  }

  /** A failure handler: the kill (its own failure swallowed), then `process.exit(1)`. */
  function RollbackSteps(cfg: Config): seq<Step>
  {
    [Step(Rollback, Spawn(KillProcess(cfg))), Step(Rollback, Exit(1))]
  }

  // ---------------------------------------------------------------- applications

  /** `SSL_ARGS`: serve over HTTPS with the provisioned pair under `__dirname`. */
  function SslArgs(cfg: Config): seq<string>
  {
    ["--ssl", "true", "--ssl-cert", Ssl.CertPath(cfg.root), "--ssl-key", Ssl.KeyPath(cfg.root)]
  }

  function AngularServe(cfg: Config, dir: string, port: int, name: string): Utils.Options
  {
    Run(cfg, cfg.packageManager,
        Utils.Strs(["run", "ng", "--", "serve", "--port"]) + [Utils.Num(port)] + Utils.Strs(SslArgs(cfg)),
        name, Some(PathJoin(cfg.root, dir)), Some(false), None)
  }

  function ServerProcess(cfg: Config): Utils.Options
  {
    Run(cfg, cfg.packageManager, Utils.Strs(["run", "dev"]), "SERVER", Some(PathJoin(cfg.root, "Server")), Some(false), None)
  }

  /** `runRepo()`, `runViewer()`, and `runServer()` unless the server is skipped (then it resolves at once). */
  function ApplicationProcesses(cfg: Config): seq<Utils.Options>
  {
    [AngularServe(cfg, "Repo", cfg.repoPort, "REPO"), AngularServe(cfg, "Viewer", cfg.viewerPort, "VIEWER")]
    + (if cfg.skipServerInit then [] else [ServerProcess(cfg)])
  }

  function Spawns(ps: seq<Utils.Options>): seq<Effect>
  {
    seq(|ps|, i requires 0 <= i < |ps| => Spawn(ps[i]))
  }

  /** `Promise.all` over the processes resolves: every one of them settles as a success. */
  predicate AllSucceed(env: Env, ps: seq<Utils.Options>)
  {
    forall p :: p in ps ==> Succeeds(env, p)
  }

  /** The awaited application launch, with the `.catch` of docker mode (rollback) or of plain mode (a log line). */
  function ApplicationsTrace(cfg: Config, env: Env): seq<Step>
  {
    Tag(Applications, Spawns(ApplicationProcesses(cfg)))
    + (if AllSucceed(env, ApplicationProcesses(cfg)) || !cfg.useDocker then [] else RollbackSteps(cfg))
  }

  /** Docker mode: unless the server is skipped, pull, start the containers without awaiting them, settle 10 s; then the applications. */
  function DockerTrace(cfg: Config, env: Env): seq<Step>
  {
    if cfg.skipServerInit then ApplicationsTrace(cfg, env)
    else
      var pull := Tag(Pull, Spawns(PullProcesses(cfg)));
      if !AllSucceed(env, PullProcesses(cfg)) then pull + [Step(Pull, Rejected)]
      else
        pull + Tag(Infrastructure, Spawns(InfrastructureProcesses(cfg)))
        + [Step(Settle, Sleep(10000))] + ApplicationsTrace(cfg, env)
  }

  function LaunchTrace(cfg: Config, env: Env): seq<Step>
  {
    if cfg.useDocker then DockerTrace(cfg, env) else ApplicationsTrace(cfg, env)
  }

  // ---------------------------------------------------------------- main

  function CertificateTrace(events: seq<Ssl.Event>): seq<Step>
  {
    seq(|events|, i requires 0 <= i < |events| => Step(Certificate, Cert(events[i])))
  }

  /** Everything `main` does after the certificate stage. */
  function AfterCertificate(cfg: Config, env: Env): seq<Step>
  {
    Tag(Install, InstallPackages(cfg, env).0)
    + Tag(Configure, ConfigurationWrites(cfg))
    + (if !ConfigurationOk(cfg, env) then [Step(Configure, Rejected)] else LaunchTrace(cfg, env))
  }

  /** The effects of one run of `main()`, in order. */
  function MainTrace(cfg: Config, env: Env): seq<Step>
  {
    var missing := CheckRequirements(cfg, env.commandExists);
    if missing != [] then [Step(Requirements, ReportMissing(missing))]
    else
      var cert := Ssl.Provision(env.files, cfg.root, env.ca, env.leaf, env.writeOk);
      if cert.exit.Some? then CertificateTrace(cert.events) + [Step(Certificate, Exit(cert.exit.value))]
      else CertificateTrace(cert.events) + AfterCertificate(cfg, env)
  }

  /** `main` gets past the requirement, certificate and configuration stages. */
  predicate ReachesLaunch(cfg: Config, env: Env)
  {
    && CheckRequirements(cfg, env.commandExists) == []
    && Ssl.Provision(env.files, cfg.root, env.ca, env.leaf, env.writeOk).exit.None?
    && ConfigurationOk(cfg, env)
  }

  /** `main` gets to launch the applications. */
  predicate ReachesApplications(cfg: Config, env: Env)
  {
    ReachesLaunch(cfg, env) && (cfg.useDocker && !cfg.skipServerInit ==> AllSucceed(env, PullProcesses(cfg)))
  }

  /** The unawaited infrastructure launch is reached (docker mode, server not skipped). */
  predicate LaunchesInfrastructure(cfg: Config, env: Env)
  {
    ReachesApplications(cfg, env) && cfg.useDocker && !cfg.skipServerInit
  }

  /**
   * `main()` as the sequential driver: each stage awaited in turn, an early
   * return on missing requirements, and the process ending where the source
   * exits or its promise rejects.
   */
  method RunMain(cfg: Config, env: Env) returns (trace: seq<Step>)
    ensures trace == MainTrace(cfg, env)
  {
    var missing := CheckRequirements(cfg, env.commandExists);
    if |missing| > 0 {
      trace := [Step(Requirements, ReportMissing(missing))];
      return;
    }

    var cert := Ssl.Provision(env.files, cfg.root, env.ca, env.leaf, env.writeOk);
    trace := CertificateTrace(cert.events);
    if cert.exit.Some? {
      trace := trace + [Step(Certificate, Exit(cert.exit.value))];
      return;
    }

    var (installs, _) := InstallPackages(cfg, env);
    trace := trace + Tag(Install, installs);

    trace := trace + Tag(Configure, ConfigurationWrites(cfg));
    if !ConfigurationOk(cfg, env) {
      Regroup(CertificateTrace(cert.events), Tag(Install, installs), Tag(Configure, ConfigurationWrites(cfg)),
              [Step(Configure, Rejected)]);
      trace := trace + [Step(Configure, Rejected)];
      return;
    }

    var launch: seq<Step> := [];
    if cfg.useDocker {
      if !cfg.skipServerInit {
        launch := Tag(Pull, Spawns(PullProcesses(cfg)));
        if !AllSucceed(env, PullProcesses(cfg)) {
          Regroup(CertificateTrace(cert.events), Tag(Install, installs), Tag(Configure, ConfigurationWrites(cfg)),
                  launch + [Step(Pull, Rejected)]);
          trace := trace + (launch + [Step(Pull, Rejected)]);
          return;
        }
        launch := launch + Tag(Infrastructure, Spawns(InfrastructureProcesses(cfg)));
        launch := launch + [Step(Settle, Sleep(10000))];
      }
      var apps := Tag(Applications, Spawns(ApplicationProcesses(cfg)));
      if !AllSucceed(env, ApplicationProcesses(cfg)) {
        apps := apps + RollbackSteps(cfg);
      }
      assert apps == ApplicationsTrace(cfg, env);
      launch := launch + apps;
    } else {
      launch := Tag(Applications, Spawns(ApplicationProcesses(cfg)));
    }
    assert launch == LaunchTrace(cfg, env);
    Regroup(CertificateTrace(cert.events), Tag(Install, installs), Tag(Configure, ConfigurationWrites(cfg)), launch);
    trace := trace + launch;
  }

  lemma Regroup<T>(a: seq<T>, b: seq<T>, c: seq<T>, d: seq<T>)
    ensures a + b + c + d == a + (b + c + d)
  {
  }

  /** The `.catch` of the unawaited infrastructure launch: it fires when any container process fails. */
  function InfrastructureHandler(cfg: Config, env: Env): seq<Step>
  {
    if LaunchesInfrastructure(cfg, env) && !AllSucceed(env, InfrastructureProcesses(cfg)) then RollbackSteps(cfg) else []
  }

  /** The SIGINT handler: the kill, only in docker mode with the server not skipped; it does not exit. */
  function OnSigint(cfg: Config): seq<Step>
  {
    if cfg.useDocker && !cfg.skipServerInit then [Step(Rollback, Spawn(KillProcess(cfg)))] else []
  }

  // ---------------------------------------------------------------- properties of main

  predicate Ordered(t: seq<Step>)
  {
    forall i, j :: 0 <= i < j < |t| ==> Rank(t[i].stage) <= Rank(t[j].stage)
  }

  predicate AtLeast(t: seq<Step>, r: nat)
  {
    forall i :: 0 <= i < |t| ==> Rank(t[i].stage) >= r
  }

  /** Every step of `t` belongs to a stage of rank `r`. */
  predicate Uniform(t: seq<Step>, r: nat)
  {
    forall i :: 0 <= i < |t| ==> Rank(t[i].stage) == r
  }

  lemma TagUniform(stage: Stage, effects: seq<Effect>)
    ensures Uniform(Tag(stage, effects), Rank(stage))
  {
  }

  /** A run of one stage followed by an ordered trace of no lower stage is ordered. */
  lemma Chain(a: seq<Step>, ra: nat, b: seq<Step>, rb: nat)
    requires Uniform(a, ra) && Ordered(b) && AtLeast(b, rb) && ra <= rb
    ensures Ordered(a + b) && AtLeast(a + b, ra)
  {
  }

  lemma {:induction false} ApplicationsOrdered(cfg: Config, env: Env)
    ensures Ordered(ApplicationsTrace(cfg, env)) && AtLeast(ApplicationsTrace(cfg, env), Rank(Applications))
  {
    TagUniform(Applications, Spawns(ApplicationProcesses(cfg)));
    Chain(Tag(Applications, Spawns(ApplicationProcesses(cfg))), Rank(Applications),
          if AllSucceed(env, ApplicationProcesses(cfg)) || !cfg.useDocker then [] else RollbackSteps(cfg),
          Rank(Applications));
  }

  /** With docker, the server not skipped and every pull succeeding: pull, infrastructure, settle, applications. */
  lemma DockerLaunchShape(cfg: Config, env: Env)
    requires cfg.useDocker && !cfg.skipServerInit && AllSucceed(env, PullProcesses(cfg))
    ensures LaunchTrace(cfg, env)
         == Tag(Pull, Spawns(PullProcesses(cfg)))
            + (Tag(Infrastructure, Spawns(InfrastructureProcesses(cfg)))
               + ([Step(Settle, Sleep(10000))] + ApplicationsTrace(cfg, env)))
  {
  }

  lemma {:induction false} LaunchOrdered(cfg: Config, env: Env)
    ensures Ordered(LaunchTrace(cfg, env)) && AtLeast(LaunchTrace(cfg, env), Rank(Pull))
  {
    ApplicationsOrdered(cfg, env);
    if cfg.useDocker && !cfg.skipServerInit {
      TagUniform(Pull, Spawns(PullProcesses(cfg)));
      if !AllSucceed(env, PullProcesses(cfg)) {
        Chain(Tag(Pull, Spawns(PullProcesses(cfg))), Rank(Pull), [Step(Pull, Rejected)], Rank(Pull));
      } else {
        TagUniform(Infrastructure, Spawns(InfrastructureProcesses(cfg)));
        DockerLaunchShape(cfg, env);
        OrderedFour(Tag(Pull, Spawns(PullProcesses(cfg))), Tag(Infrastructure, Spawns(InfrastructureProcesses(cfg))),
                    [Step(Settle, Sleep(10000))], ApplicationsTrace(cfg, env));
      }
    }
  }

  lemma OrderedFour(pull: seq<Step>, infra: seq<Step>, settle: seq<Step>, apps: seq<Step>)
    requires Uniform(pull, Rank(Pull)) && Uniform(infra, Rank(Infrastructure)) && Uniform(settle, Rank(Settle))
    requires Ordered(apps) && AtLeast(apps, Rank(Applications))
    ensures Ordered(pull + (infra + (settle + apps))) && AtLeast(pull + (infra + (settle + apps)), Rank(Pull))
  {
    Chain(settle, Rank(Settle), apps, Rank(Applications));
    Chain(infra, Rank(Infrastructure), settle + apps, Rank(Settle));
    Chain(pull, Rank(Pull), infra + (settle + apps), Rank(Infrastructure));
  }

  /** `main` issues its stages in the fixed order requirements, certificate, install, configuration, pull, infrastructure, settle, applications, rollback. */
  lemma {:induction false} MainStageOrder(cfg: Config, env: Env)
    ensures Ordered(MainTrace(cfg, env))
  {
    if CheckRequirements(cfg, env.commandExists) == [] {
      var cert := Ssl.Provision(env.files, cfg.root, env.ca, env.leaf, env.writeOk);
      var certSteps := CertificateTrace(cert.events);
      assert Uniform(certSteps, Rank(Certificate));
      if cert.exit.Some? {
        Chain(certSteps, Rank(Certificate), [Step(Certificate, Exit(cert.exit.value))], Rank(Certificate));
      } else {
        AfterCertificateOrdered(cfg, env);
        Chain(certSteps, Rank(Certificate), AfterCertificate(cfg, env), Rank(Install));
      }
    }
  }

  lemma AfterCertificateOrdered(cfg: Config, env: Env)
    ensures Ordered(AfterCertificate(cfg, env)) && AtLeast(AfterCertificate(cfg, env), Rank(Install))
  {
    var installs := Tag(Install, InstallPackages(cfg, env).0);
    var configs := Tag(Configure, ConfigurationWrites(cfg));
    var rest := if !ConfigurationOk(cfg, env) then [Step(Configure, Rejected)] else LaunchTrace(cfg, env);
    TagUniform(Install, InstallPackages(cfg, env).0);
    TagUniform(Configure, ConfigurationWrites(cfg));
    LaunchOrdered(cfg, env);
    Chain(configs, Rank(Configure), rest, Rank(Configure));
    Chain(installs, Rank(Install), configs + rest, Rank(Configure));
    assert AfterCertificate(cfg, env) == installs + (configs + rest);
  }

  // ---------------------------------------------------------------- which stages are reached

  /** The stages that occur in `t`. */
  function StagesOf(t: seq<Step>): set<Stage>
    decreases |t|
  {
    if t == [] then {} else {t[0].stage} + StagesOf(t[1..])
  }

  lemma {:induction false} StagesOfConcat(a: seq<Step>, b: seq<Step>)
    ensures StagesOf(a + b) == StagesOf(a) + StagesOf(b)
    decreases |a|
  {
    if a != [] {
      assert (a + b)[1..] == a[1..] + b;
      StagesOfConcat(a[1..], b);
    } else {
      assert a + b == b;
    }
  }

  lemma {:induction false} StagesOfTag(stage: Stage, effects: seq<Effect>)
    ensures StagesOf(Tag(stage, effects)) == if effects == [] then {} else {stage}
    decreases |effects|
  {
    if effects != [] {
      assert Tag(stage, effects)[1..] == Tag(stage, effects[1..]);
      StagesOfTag(stage, effects[1..]);
    }
  }

  lemma StagesOfSingle(step: Step)
    ensures StagesOf([step]) == {step.stage}
  {
    assert [step][1..] == [];
  }

  /** The stages of the applications launch: the launch itself, and rollback when a launch fails in docker mode. */
  lemma {:induction false} ApplicationsStages(cfg: Config, env: Env)
    ensures StagesOf(ApplicationsTrace(cfg, env))
         == {Applications} + (if cfg.useDocker && !AllSucceed(env, ApplicationProcesses(cfg)) then {Rollback} else {})
  {
    var rollback := if AllSucceed(env, ApplicationProcesses(cfg)) || !cfg.useDocker then [] else RollbackSteps(cfg);
    StagesOfConcat(Tag(Applications, Spawns(ApplicationProcesses(cfg))), rollback);
    StagesOfTag(Applications, Spawns(ApplicationProcesses(cfg)));
    if rollback != [] {
      assert RollbackSteps(cfg)[1..] == [Step(Rollback, Exit(1))];
      StagesOfSingle(Step(Rollback, Exit(1)));
    }
  }

  /**
   * Pull, infrastructure and the settle delay occur only in docker mode with the
   * server not skipped, and the last two only after every pull succeeded; the
   * applications are launched unless a pull failed; rollback occurs only in
   * docker mode, when an application launch fails.
   */
  lemma {:induction false} LaunchStages(cfg: Config, env: Env)
    ensures var S := StagesOf(LaunchTrace(cfg, env));
      var dockerInfra := cfg.useDocker && !cfg.skipServerInit;
      var pulled := AllSucceed(env, PullProcesses(cfg));
      && (Pull in S <==> dockerInfra)
      && (Infrastructure in S <==> dockerInfra && pulled)
      && (Settle in S <==> dockerInfra && pulled)
      && (Applications in S <==> !dockerInfra || pulled)
      && (Rollback in S <==> cfg.useDocker && (!dockerInfra || pulled) && !AllSucceed(env, ApplicationProcesses(cfg)))
      && S <= {Pull, Infrastructure, Settle, Applications, Rollback}
  {
    ApplicationsStages(cfg, env);
    LaunchStagesCases(cfg, env);
    LaunchStageLogic(StagesOf(LaunchTrace(cfg, env)), StagesOf(ApplicationsTrace(cfg, env)),
                     cfg.useDocker, cfg.useDocker && !cfg.skipServerInit, AllSucceed(env, PullProcesses(cfg)),
                     AllSucceed(env, ApplicationProcesses(cfg)));
  }

  lemma LaunchStagesCases(cfg: Config, env: Env)
    ensures var S := StagesOf(LaunchTrace(cfg, env));
      var dockerInfra := cfg.useDocker && !cfg.skipServerInit;
      var pulled := AllSucceed(env, PullProcesses(cfg));
      && (!dockerInfra ==> S == StagesOf(ApplicationsTrace(cfg, env)))
      && (dockerInfra && !pulled ==> S == {Pull})
      && (dockerInfra && pulled ==> S == {Pull, Infrastructure, Settle} + StagesOf(ApplicationsTrace(cfg, env)))
  {
    if cfg.useDocker && !cfg.skipServerInit {
      if !AllSucceed(env, PullProcesses(cfg)) {
        FailedPullStages(cfg, env);
      } else {
        DockerLaunchStages(cfg, env);
      }
    } else {
      assert LaunchTrace(cfg, env) == ApplicationsTrace(cfg, env);
    }
  }

  lemma LaunchStageLogic(S: set<Stage>, A: set<Stage>, docker: bool, dockerInfra: bool, pulled: bool, appsOk: bool)
    requires A == {Applications} + (if docker && !appsOk then {Rollback} else {})
    requires !dockerInfra ==> S == A
    requires dockerInfra && !pulled ==> S == {Pull}
    requires dockerInfra && pulled ==> S == {Pull, Infrastructure, Settle} + A
    requires dockerInfra ==> docker
    ensures Pull in S <==> dockerInfra
    ensures Infrastructure in S <==> dockerInfra && pulled
    ensures Settle in S <==> dockerInfra && pulled
    ensures Applications in S <==> !dockerInfra || pulled
    ensures Rollback in S <==> docker && (!dockerInfra || pulled) && !appsOk
    ensures S <= {Pull, Infrastructure, Settle, Applications, Rollback}
  {
  }

  lemma FailedPullStages(cfg: Config, env: Env)
    requires cfg.useDocker && !cfg.skipServerInit && !AllSucceed(env, PullProcesses(cfg))
    ensures StagesOf(LaunchTrace(cfg, env)) == {Pull}
  {
    StagesOfTag(Pull, Spawns(PullProcesses(cfg)));
    StagesOfConcat(Tag(Pull, Spawns(PullProcesses(cfg))), [Step(Pull, Rejected)]);
    StagesOfSingle(Step(Pull, Rejected));
  }

  lemma DockerLaunchStages(cfg: Config, env: Env)
    requires cfg.useDocker && !cfg.skipServerInit && AllSucceed(env, PullProcesses(cfg))
    ensures StagesOf(LaunchTrace(cfg, env)) == {Pull, Infrastructure, Settle} + StagesOf(ApplicationsTrace(cfg, env))
  {
    DockerLaunchShape(cfg, env);
    StagesOfTag(Pull, Spawns(PullProcesses(cfg)));
    StagesOfTag(Infrastructure, Spawns(InfrastructureProcesses(cfg)));
    StagesOfSingle(Step(Settle, Sleep(10000)));
    StagesOfFour(Tag(Pull, Spawns(PullProcesses(cfg))), Tag(Infrastructure, Spawns(InfrastructureProcesses(cfg))),
                 [Step(Settle, Sleep(10000))], ApplicationsTrace(cfg, env));
  }

  lemma StagesOfFour(a: seq<Step>, b: seq<Step>, c: seq<Step>, d: seq<Step>)
    ensures StagesOf(a + (b + (c + d))) == StagesOf(a) + StagesOf(b) + StagesOf(c) + StagesOf(d)
  {
    StagesOfConcat(c, d);
    StagesOfConcat(b, c + d);
    StagesOfConcat(a, b + (c + d));
  }

  /**
   * The requirement gate: requirements are reported exactly when some are
   * missing, and then nothing else happens; certificate events occur once the
   * requirements are met and the certificate is not already on disk; install
   * and configuration run exactly when the certificate stage did not exit.
   */
  lemma {:induction false} RequirementsGate(cfg: Config, env: Env)
    ensures var S := StagesOf(MainTrace(cfg, env));
      var missing := CheckRequirements(cfg, env.commandExists);
      var cert := Ssl.Provision(env.files, cfg.root, env.ca, env.leaf, env.writeOk);
      && (Requirements in S <==> missing != [])
      && (missing != [] ==> S == {Requirements})
      && (Certificate in S <==> missing == [] && cert.events != [])
      && (Install in S <==> missing == [] && cert.exit.None?)
      && (Configure in S <==> missing == [] && cert.exit.None?)
  {
    MainStagesCases(cfg, env);
    LaunchStages(cfg, env);
    var cert := Ssl.Provision(env.files, cfg.root, env.ca, env.leaf, env.writeOk);
    StageLogic(StagesOf(MainTrace(cfg, env)), StagesOf(LaunchTrace(cfg, env)),
               CheckRequirements(cfg, env.commandExists) != [], cert.exit.Some?, cert.events == [],
               ConfigurationOk(cfg, env));
  }

  /** Pull, infrastructure and the settle delay happen only in docker mode with the server not skipped, the last two only after every pull succeeded. */
  lemma {:induction false} DockerOnlyStages(cfg: Config, env: Env)
    ensures var S := StagesOf(MainTrace(cfg, env));
      && (Pull in S <==> ReachesLaunch(cfg, env) && cfg.useDocker && !cfg.skipServerInit)
      && (Infrastructure in S <==> LaunchesInfrastructure(cfg, env))
      && (Settle in S <==> LaunchesInfrastructure(cfg, env))
  {
    MainStagesCases(cfg, env);
    LaunchStages(cfg, env);
    var cert := Ssl.Provision(env.files, cfg.root, env.ca, env.leaf, env.writeOk);
    var missing := CheckRequirements(cfg, env.commandExists) != [];
    var configured := ConfigurationOk(cfg, env);
    var pulled := AllSucceed(env, PullProcesses(cfg));
    StageLogic(StagesOf(MainTrace(cfg, env)), StagesOf(LaunchTrace(cfg, env)),
               missing, cert.exit.Some?, cert.events == [], configured);
    assert ReachesLaunch(cfg, env) == (!missing && cert.exit.None? && configured);
    assert LaunchesInfrastructure(cfg, env) == (!missing && cert.exit.None? && configured && pulled
                                                && cfg.useDocker && !cfg.skipServerInit);
  }

  /** The applications are launched exactly when `main` gets that far; rollback happens exactly in docker mode when an application launch fails. */
  lemma {:induction false} ApplicationsAndRollback(cfg: Config, env: Env)
    ensures var S := StagesOf(MainTrace(cfg, env));
      && (Applications in S <==> ReachesApplications(cfg, env))
      && (Rollback in S <==> ReachesApplications(cfg, env) && cfg.useDocker && !AllSucceed(env, ApplicationProcesses(cfg)))
  {
    MainStagesCases(cfg, env);
    LaunchStages(cfg, env);
    var cert := Ssl.Provision(env.files, cfg.root, env.ca, env.leaf, env.writeOk);
    StageLogic(StagesOf(MainTrace(cfg, env)), StagesOf(LaunchTrace(cfg, env)),
               CheckRequirements(cfg, env.commandExists) != [], cert.exit.Some?, cert.events == [],
               ConfigurationOk(cfg, env));
  }

  /** How the stages of `main` are made up of the stages of its launch, case by case. */
  lemma StageLogic(S: set<Stage>, L: set<Stage>, missing: bool, exited: bool, noEvents: bool, configured: bool)
    requires missing ==> S == {Requirements}
    requires !missing && exited ==> S == {Certificate} && !noEvents
    requires !missing && !exited ==>
      S == (if noEvents then {} else {Certificate}) + {Install, Configure} + (if configured then L else {})
    requires L <= {Pull, Infrastructure, Settle, Applications, Rollback}
    ensures Requirements in S <==> missing
    ensures Certificate in S <==> !missing && !noEvents
    ensures Install in S <==> !missing && !exited
    ensures Configure in S <==> !missing && !exited
    ensures Pull in S <==> !missing && !exited && configured && Pull in L
    ensures Infrastructure in S <==> !missing && !exited && configured && Infrastructure in L
    ensures Settle in S <==> !missing && !exited && configured && Settle in L
    ensures Applications in S <==> !missing && !exited && configured && Applications in L
    ensures Rollback in S <==> !missing && !exited && configured && Rollback in L
  {
  }

  lemma {:induction false} MainStagesCases(cfg: Config, env: Env)
    ensures var missing := CheckRequirements(cfg, env.commandExists);
      var cert := Ssl.Provision(env.files, cfg.root, env.ca, env.leaf, env.writeOk);
      && (missing != [] ==> StagesOf(MainTrace(cfg, env)) == {Requirements})
      && (missing == [] && cert.exit.Some? ==> StagesOf(MainTrace(cfg, env)) == {Certificate})
      && (missing == [] && cert.exit.Some? ==> cert.events != [])
      && (missing == [] && cert.exit.None? ==>
            (StagesOf(MainTrace(cfg, env))
             == (if cert.events == [] then {} else {Certificate})
                + {Install, Configure} + (if ConfigurationOk(cfg, env) then StagesOf(LaunchTrace(cfg, env)) else {})))
  {
    var missing := CheckRequirements(cfg, env.commandExists);
    if missing == [] {
      var cert := Ssl.Provision(env.files, cfg.root, env.ca, env.leaf, env.writeOk);
      if cert.exit.Some? {
        CertificateExitStages(cfg, env);
      } else {
        LaunchedStages(cfg, env);
      }
    } else {
      StagesOfSingle(Step(Requirements, ReportMissing(missing)));
    }
  }

  lemma CertificateExitStages(cfg: Config, env: Env)
    requires CheckRequirements(cfg, env.commandExists) == []
    requires Ssl.Provision(env.files, cfg.root, env.ca, env.leaf, env.writeOk).exit.Some?
    ensures StagesOf(MainTrace(cfg, env)) == {Certificate}
  {
    var cert := Ssl.Provision(env.files, cfg.root, env.ca, env.leaf, env.writeOk);
    CertificateStages(cert.events);
    StagesOfConcat(CertificateTrace(cert.events), [Step(Certificate, Exit(cert.exit.value))]);
    StagesOfSingle(Step(Certificate, Exit(cert.exit.value)));
  }

  lemma LaunchedStages(cfg: Config, env: Env)
    requires CheckRequirements(cfg, env.commandExists) == []
    requires Ssl.Provision(env.files, cfg.root, env.ca, env.leaf, env.writeOk).exit.None?
    ensures StagesOf(MainTrace(cfg, env))
         == (if Ssl.Provision(env.files, cfg.root, env.ca, env.leaf, env.writeOk).events == [] then {} else {Certificate})
            + {Install, Configure} + (if ConfigurationOk(cfg, env) then StagesOf(LaunchTrace(cfg, env)) else {})
  {
    var cert := Ssl.Provision(env.files, cfg.root, env.ca, env.leaf, env.writeOk);
    CertificateStages(cert.events);
    AfterCertificateStages(cfg, env);
    StagesOfConcat(CertificateTrace(cert.events), AfterCertificate(cfg, env));
  }

  lemma {:induction false} CertificateStages(events: seq<Ssl.Event>)
    ensures StagesOf(CertificateTrace(events)) == if events == [] then {} else {Certificate}
    decreases |events|
  {
    if events != [] {
      assert CertificateTrace(events)[1..] == CertificateTrace(events[1..]);
      CertificateStages(events[1..]);
    }
  }

  lemma AfterCertificateStages(cfg: Config, env: Env)
    ensures StagesOf(AfterCertificate(cfg, env))
         == {Install, Configure} + (if ConfigurationOk(cfg, env) then StagesOf(LaunchTrace(cfg, env)) else {})
  {
    var installs := Tag(Install, InstallPackages(cfg, env).0);
    var configs := Tag(Configure, ConfigurationWrites(cfg));
    var rest := if !ConfigurationOk(cfg, env) then [Step(Configure, Rejected)] else LaunchTrace(cfg, env);
    StagesOfTag(Install, InstallPackages(cfg, env).0);
    StagesOfTag(Configure, ConfigurationWrites(cfg));
    StagesOfSingle(Step(Configure, Rejected));
    StagesOfConcat(configs, rest);
    StagesOfConcat(installs, configs + rest);
    assert AfterCertificate(cfg, env) == installs + (configs + rest);
  }

  // ---------------------------------------------------------------- rollback, the server switch, the kill

  predicate EndsWith(t: seq<Step>, tail: seq<Step>)
  {
    |tail| <= |t| && t[|t| - |tail|..] == tail
  }

  lemma EndsWithAppend(prefix: seq<Step>, t: seq<Step>, tail: seq<Step>)
    requires EndsWith(t, tail)
    ensures EndsWith(prefix + t, tail)
  {
    assert (prefix + t)[|prefix + t| - |tail|..] == t[|t| - |tail|..];
  }

  /** In docker mode a failed application launch ends `main` with the kill followed by `process.exit(1)`. */
  lemma {:induction false} RollbackOnApplicationFailure(cfg: Config, env: Env)
    requires ReachesApplications(cfg, env) && cfg.useDocker && !AllSucceed(env, ApplicationProcesses(cfg))
    ensures EndsWith(MainTrace(cfg, env), RollbackSteps(cfg))
    ensures MainTrace(cfg, env)[|MainTrace(cfg, env)| - 1] == Step(Rollback, Exit(1))
  {
    var apps := ApplicationsTrace(cfg, env);
    EndsWithAppend(Tag(Applications, Spawns(ApplicationProcesses(cfg))), RollbackSteps(cfg), RollbackSteps(cfg));
    if !cfg.skipServerInit {
      DockerLaunchShape(cfg, env);
      EndsWithAppend([Step(Settle, Sleep(10000))], apps, RollbackSteps(cfg));
      EndsWithAppend(Tag(Infrastructure, Spawns(InfrastructureProcesses(cfg))), [Step(Settle, Sleep(10000))] + apps,
                     RollbackSteps(cfg));
      EndsWithAppend(Tag(Pull, Spawns(PullProcesses(cfg))),
                     Tag(Infrastructure, Spawns(InfrastructureProcesses(cfg))) + ([Step(Settle, Sleep(10000))] + apps),
                     RollbackSteps(cfg));
    }
    EndsWithAppend(Tag(Install, InstallPackages(cfg, env).0) + Tag(Configure, ConfigurationWrites(cfg)),
                   LaunchTrace(cfg, env), RollbackSteps(cfg));
    var cert := Ssl.Provision(env.files, cfg.root, env.ca, env.leaf, env.writeOk);
    EndsWithAppend(CertificateTrace(cert.events), AfterCertificate(cfg, env), RollbackSteps(cfg));
  }

  /**
   * Skipping the server drops it everywhere: docker is not required, the
   * server is not installed, its config is not written, it is not launched,
   * and the Repo and Viewer environments point at the backend URL instead of
   * the local HTTPS server.
   */
  lemma ServerSkipped(cfg: Config)
    ensures "docker" !in RequiredCommands(cfg) <==> cfg.skipServerInit && cfg.packageManager != "docker"
    ensures var url := if cfg.skipServerInit then cfg.backendUrl
                       else "https://localhost:" + Text.IntToDecimal(cfg.serverPort) + "/";
      ConfigurationWrites(cfg)[..2] == [WriteEnvironment(EnvironmentPath(cfg, "Repo"), url),
                                        WriteEnvironment(EnvironmentPath(cfg, "Viewer"), url)]
    ensures "Server" in Repositories(cfg) <==> !cfg.skipServerInit
    ensures WriteServerConfig(ServerConfigPath(cfg)) in ConfigurationWrites(cfg) <==> !cfg.skipServerInit
    ensures ServerProcess(cfg) in ApplicationProcesses(cfg) <==> !cfg.skipServerInit
    ensures |Repositories(cfg)| == |ApplicationProcesses(cfg)| == if cfg.skipServerInit then 2 else 3
  {
    assert "Server"[0] == 'S' && "Viewer"[0] == 'V' && "Repo"[0] == 'R';
    assert ServerProcess(cfg).name[0] == 'S';
    assert AngularServe(cfg, "Repo", cfg.repoPort, "REPO").name[0] == 'R';
    assert AngularServe(cfg, "Viewer", cfg.viewerPort, "VIEWER").name[0] == 'V';
    assert "docker"[0] == 'd' && "git"[0] == 'g';
  }

  /** The rollback kill is `docker kill` of the three containers, with its output shown. */
  lemma KillNamesContainers(cfg: Config)
    ensures Utils.StringifyArgs(KillProcess(cfg).args) == ["kill", "kompakkt-mongo", "kompakkt-redis", "kompakkt-mailhog"]
    ensures KillProcess(cfg).command == "docker" && KillProcess(cfg).name == "KILL-CONTAINERS" && !KillProcess(cfg).silent
  {
  }

  /** `p` is `docker run --name <container> ...`. */
  predicate RunsContainer(p: Utils.Options, container: Utils.Arg)
  {
    p.command == "docker" && |p.args| >= 3
    && p.args[0] == Utils.Str("run") && p.args[1] == Utils.Str("--name") && p.args[2] == container
  }

  /**
   * The kill names exactly the containers the infrastructure launch starts:
   * its arguments after `kill` are the `--name` words of the Mongo, Redis
   * and MailHog `docker run` processes, in that order.
   */
  lemma KillMatchesLaunch(cfg: Config)
    ensures var I, K := InfrastructureProcesses(cfg), KillProcess(cfg).args;
      && |K| == 4 && RunsContainer(I[1], K[1]) && RunsContainer(I[0], K[2]) && RunsContainer(I[2], K[3])
  {
    ContainerNamed(cfg, RedisRest(cfg), "REDIS", RedisContainer);
    ContainerNamed(cfg, MongoRest(cfg), "MONGO", MongoContainer);
    ContainerNamed(cfg, MailhogRest(cfg), "MAILHOG", MailhogContainer);
  }

  /** A `docker run --name <container> ...` template starts with those three words. */
  lemma ContainerNamed(cfg: Config, rest: string, name: string, container: string)
    requires ' ' !in container
    ensures RunsContainer(DockerRun(cfg, NamedRun(container, rest), name), Utils.Str(container))
  {
    assert NamedRun(container, rest) == "run" + [' '] + ("--name" + [' '] + (container + [' '] + rest));
    Text.SplitAfterWord(container, rest, ' ');
    Text.SplitAfterWord("--name", container + [' '] + rest, ' ');
    Text.SplitAfterWord("run", "--name" + [' '] + (container + [' '] + rest), ' ');
  }

  /** SIGINT kills the containers only in docker mode with the server not skipped, and never exits the process. */
  lemma SigintKillsOnlyInfrastructure(cfg: Config)
    ensures OnSigint(cfg) != [] <==> cfg.useDocker && !cfg.skipServerInit
    ensures forall i :: 0 <= i < |OnSigint(cfg)| ==> OnSigint(cfg)[i].effect == Spawn(KillProcess(cfg))
  {
  }

  // ---------------------------------------------------------------- the unawaited infrastructure launch

  /** The names the infrastructure processes run under. */
  const InfrastructureNames := {"REDIS", "MONGO", "MAILHOG"}

  lemma InfrastructureNamed(cfg: Config)
    ensures forall p :: p in InfrastructureProcesses(cfg) ==> p.name in InfrastructureNames
  {
  }

  /** `env` with the infrastructure processes closing with `codes` instead. */
  function WithInfrastructureCodes(cfg: Config, env: Env, codes: Utils.Options -> Option<int>): Env
  {
    env.(exitCode := (p: Utils.Options) => if p.name in InfrastructureNames then codes(p) else env.exitCode(p))
  }

  lemma {:induction false} InstallUnaffected(cfg: Config, env: Env, codes: Utils.Options -> Option<int>, repos: seq<string>)
    requires forall r :: r in repos ==> r !in InfrastructureNames
    ensures InstallAll(cfg, WithInfrastructureCodes(cfg, env, codes), repos) == InstallAll(cfg, env, repos)
    decreases |repos|
  {
    if repos != [] {
      var env' := WithInfrastructureCodes(cfg, env, codes);
      assert CloneProcess(cfg, repos[0]).name == "installer";
      assert InstallProcess(cfg, repos[0]).name == repos[0];
      assert "installer" !in InfrastructureNames;
      assert CloneAndInstall(cfg, env', repos[0]) == CloneAndInstall(cfg, env, repos[0]);
      InstallUnaffected(cfg, env, codes, repos[1..]);
    }
  }

  /**
   * The infrastructure launch is not awaited: how the container processes end
   * changes nothing in what `main` does (only its `.catch` reacts to them).
   */
  lemma {:induction false} InfrastructureNotAwaited(cfg: Config, env: Env, codes: Utils.Options -> Option<int>)
    ensures MainTrace(cfg, WithInfrastructureCodes(cfg, env, codes)) == MainTrace(cfg, env)
  {
    var env' := WithInfrastructureCodes(cfg, env, codes);
    InstallUnaffected(cfg, env, codes, Repositories(cfg));
    LaunchUnaffected(cfg, env, codes);
    assert AfterCertificate(cfg, env') == AfterCertificate(cfg, env);
  }

  lemma AwaitedUnaffected(cfg: Config, env: Env, codes: Utils.Options -> Option<int>, ps: seq<Utils.Options>)
    requires forall p :: p in ps ==> p.name !in InfrastructureNames
    ensures AllSucceed(WithInfrastructureCodes(cfg, env, codes), ps) == AllSucceed(env, ps)
  {
  }

  lemma LaunchUnaffected(cfg: Config, env: Env, codes: Utils.Options -> Option<int>)
    ensures LaunchTrace(cfg, WithInfrastructureCodes(cfg, env, codes)) == LaunchTrace(cfg, env)
  {
    assert forall p :: p in PullProcesses(cfg) ==> p.name == "DOCKER-IMAGES";
    AwaitedUnaffected(cfg, env, codes, PullProcesses(cfg));
    ApplicationsUnaffected(cfg, env, codes);
  }

  lemma ApplicationsUnaffected(cfg: Config, env: Env, codes: Utils.Options -> Option<int>)
    ensures ApplicationsTrace(cfg, WithInfrastructureCodes(cfg, env, codes)) == ApplicationsTrace(cfg, env)
  {
    assert forall p :: p in ApplicationProcesses(cfg) ==> p.name in {"REPO", "VIEWER", "SERVER"};
    AwaitedUnaffected(cfg, env, codes, ApplicationProcesses(cfg));
  }

  /**
   * The `.catch` of the infrastructure launch rolls back exactly when that
   * launch happened and a container process fails, and the rollback is the
   * kill followed by `exit(1)`.
   */
  lemma InfrastructureRollback(cfg: Config, env: Env)
    ensures InfrastructureHandler(cfg, env) != [] <==>
      Infrastructure in StagesOf(MainTrace(cfg, env)) && !AllSucceed(env, InfrastructureProcesses(cfg))
    ensures InfrastructureHandler(cfg, env) == [] || InfrastructureHandler(cfg, env) == RollbackSteps(cfg)
    ensures InfrastructureHandler(cfg, env) != [] ==>
      InfrastructureHandler(cfg, env) == [Step(Rollback, Spawn(KillProcess(cfg))), Step(Rollback, Exit(1))]
  {
    DockerOnlyStages(cfg, env);
  }
}
