# Kompakkt.Mono launcher, modelled in Dafny

Kompakkt.Mono bundles the Kompakkt Viewer, Repo and Server and starts them for local
development. This project models its launchers:

- `run.ts` (module `Launcher`) is the orchestration driver. It runs these stages in order:
  - requirement check;
  - self-signed certificate;
  - clone and install of the repositories;
  - configuration files;
  - docker image pull and the Redis/Mongo/MailHog containers, then a ten-second settle delay;
  - the three applications;
  - rollback by `docker kill` when a launch fails.

  Its SIGINT handler and the `.catch` of the unawaited container launch are modelled too.
- `run.js` (module `LegacyLauncher`) is the older driver. It has its own process runner, an
  HTTPS switch and an optional docker-compose path.
- `kompakkt.ts` (module `Cli`) is the `kompakkt` command-line tool:
  - positional arguments;
  - `whereis`-based dependency check;
  - repository setup;
  - the `setup`, `up`, `down` and `compose` commands.
- `modules/utils.ts` (module `Utils`) is the process runner `execute`, with its option
  defaults, stream forwarding and exit-code rule.
- `modules/healthcheck.ts` (module `Healthcheck`) is the port probe and the bounded readiness loop.
- `modules/ssl.ts` (module `Ssl`) is certificate provisioning on a mutable disk.

Two helper modules support the others:
- `Common` holds `Option`, `Outcome` and path joining.
- `Text` holds trimming, splitting, joining and decimal printing and parsing. Trimming is
  characterised by its contract: what it keeps and that only white space is removed. Splitting
  and joining, and printing and parsing a decimal, come with round-trip lemmas.

The model does not spawn processes, open sockets or touch files. The outside world enters as
oracle parameters:
- the code each process closes with;
- what `whereis` prints;
- how each port probe of each round ends;
- which writes succeed;
- which files and directories exist.

A launcher is modelled by the effects it issues, in order, and by how it ends. Each sequential
driver is a `method` proved equal to the function that specifies it. The properties the source
promises are lemmas about those functions:
- stage order;
- which stages are reached, exactly;
- rollback placement;
- independence from unawaited processes;
- idempotence of certificate provisioning;
- the first-passing-round characterisation of the readiness loop.

## Model

| member | source | states |
|---|---|---|
| Utils.Exists | modules/utils.ts:5-8 | a path exists exactly when `stat` succeeds; any stat error means it does not |
| Utils.ArgString | modules/utils.ts:35 | a string argument is passed unchanged; a number is printed as a decimal that parses back to the same number |
| Utils.StringifyArgs | modules/utils.ts:35 | the spawned argument list has one entry per argument, each the stringified argument at the same position |
| Utils.Merge | modules/utils.ts:21-33 | every option the caller supplies overrides the default; every option left out takes its default (empty command and args, name `PROCESS`, silent, the process's cwd, no shell) |
| Utils.MergeDefaults | modules/utils.ts:22-29 | with no options: empty command and args, name `PROCESS`, silent, the process's cwd, no shell |
| Utils.MergeSupplied | modules/utils.ts:30-33 | fully supplied options come through the merge unchanged |
| Utils.Forwarding | modules/utils.ts:38-54 | at most one printed line per received chunk; each line is tagged with the process name and comes from a stream that is forwarded (both when not silent, stderr only when silent) |
| Utils.StderrOnly | modules/utils.ts:47-54 | the filtered chunks are all stderr chunks |
| Utils.ForwardingVerbose | modules/utils.ts:38-54 | when not silent, every chunk of both streams is printed, in arrival order, end-trimmed |
| Utils.ForwardingSilent | modules/utils.ts:38-54 | when silent, exactly the stderr chunks are printed |
| Utils.ClassifySuccess | modules/utils.ts:62 | a process succeeds iff it closes with code 0 or with no code (killed by a signal), and fails iff its code is non-zero |
| Utils.Execute | modules/utils.ts:21-65 | spawns the merged command with stringified arguments, cwd and shell; prints the forwarded lines, then one completion line; settles as the exit-code rule says |
| Text.TrimEnd | modules/utils.ts:44 | the result is a prefix of the input; everything removed is white space; the result does not end in white space |
| Text.TrimStart | kompakkt.ts:110-112 | the result is a suffix of the input; everything removed is white space; the result does not start in white space |
| Text.Trim | kompakkt.ts:110-112 | the result is the slice of the input after its leading white space, only white space follows it, and it neither starts nor ends with white space |
| Text.Split | kompakkt.ts:16 | splitting yields at least one piece, and no piece contains the separator |
| Text.JoinSplit | kompakkt.ts:110-113 | joining the pieces of a split restores the string |
| Text.SplitJoin | kompakkt.ts:110-113 | splitting a join of separator-free pieces (at least one) restores the pieces |
| Text.SplitCount | kompakkt.ts:16 | a split has one more piece than the separator has occurrences |
| Text.SplitIsProper | kompakkt.ts:16 | a split has more than one piece iff the separator occurs in the string |
| Text.NatToDecimal | modules/utils.ts:35 | a decimal has at least one digit, only digits, and no leading zero |
| Text.IntToDecimalRoundTrip | modules/utils.ts:35 | parsing the printed decimal of any integer gives the integer back |
| Healthcheck.WaitForPort | modules/healthcheck.ts:8-27 | a probe reports ready iff the connection is established; a socket error or the timeout reports not ready |
| Healthcheck.RoundTargets | modules/healthcheck.ts:36-40 | every round probes exactly three ports |
| Healthcheck.MongoTarget | modules/healthcheck.ts:36-40 | the rounds probe Redis, then Mongo (27017 when its port is unset), then MailHog HTTP |
| Healthcheck.SearchFromFinds | modules/healthcheck.ts:35-45 | the search from round i finds the least passing round in [i, attempts), or reports that none passes |
| Healthcheck.FirstReadyRoundIsLeast | modules/healthcheck.ts:35-45 | the gate passes at the least round below the budget whose three probes all connect, and fails iff no such round exists |
| Healthcheck.FailedRoundsShape | modules/healthcheck.ts:35-48 | k failing rounds probe rounds 0..k-1 in order, each followed by exactly one sleep |
| Healthcheck.WaitForServices | modules/healthcheck.ts:29-51 | with defaults of 30 attempts and 1000 ms: returns at the first passing round, after probing and sleeping through every earlier one; throws after the whole budget, having slept after every round |
| Healthcheck.PartialReadinessDoesNotCount | modules/healthcheck.ts:36-42 | every port answering in some round does not pass the gate; all three must answer in the same round |
| Ssl.PathsDistinct | modules/ssl.ts:8-12 | key, cert and chain files under one root are three different paths |
| Ssl.StatOf | modules/ssl.ts:9-11 | `stat` finds a path iff the path is on disk |
| Ssl.ProvisionSkips | modules/ssl.ts:14-17 | with key and cert present, nothing is generated or written and the process goes on |
| Ssl.ChainNotConsulted | modules/ssl.ts:8-17 | whether the chain file exists changes no decision |
| Ssl.ProvisionWrites | modules/ssl.ts:19-46 | with key or cert missing: one CA and one leaf are requested with the fixed parameters; key, cert and chain (leaf cert, newline, CA cert) are written; each successful write lands; no other file changes; any failed write exits with 1 |
| Ssl.ProvisionIdempotent | modules/ssl.ts:7-46 | once a call has written key and cert, a later call generates and writes nothing, whatever mkcert and the disk would do |
| Ssl.Disk.CheckOrCreateCert | modules/ssl.ts:7-47 | the disk's files, event log and exit status after one call are those of the provisioning function |
| Ssl.TwoRuns | modules/ssl.ts:7-47 | after a successful first run, a second run on the same disk changes no file and issues no effect; with key and cert already present, the first run changes nothing either |
| Launcher.Missing | run.ts:56-66 | a command is in the result iff it is listed and does not resolve |
| Launcher.MissingInOrder | run.ts:56-66 | the result keeps list order: the unresolved commands of a concatenation are those of the first part followed by those of the second, and a single command is kept iff it does not resolve |
| Launcher.CheckRequirementsReportsMissing | run.ts:56-66 | a "Could not find" message is reported exactly for each unresolved required command; none is reported iff all resolve; docker is required iff the server is not skipped (or docker is the package manager) |
| Launcher.CloneOnlyWhenAbsent | run.ts:127-147 | a clone runs iff the checkout directory is missing; the install runs unless that clone failed; the repository succeeds iff its install ran and succeeded |
| Launcher.InstallAllOk | run.ts:153-164 | installation resolves true iff every repository's clone-and-install succeeded |
| Launcher.RunMain | run.ts:272-334 | the stepwise driver issues exactly the effect trace of `main` |
| Launcher.ApplicationsOrdered | run.ts:324-327 | the application launch and its rollback form an ordered trace at the applications stage or later |
| Launcher.DockerLaunchShape | run.ts:306-327 | in docker mode, with the server not skipped and all pulls succeeding: pulls, then containers, then the settle delay, then the applications |
| Launcher.LaunchOrdered | run.ts:306-333 | the launch part is ordered by stage and starts no earlier than the pull stage |
| Launcher.MainStageOrder | run.ts:272-334 | every run of `main` issues its stages in the fixed order: requirements, certificate, install, configuration, pull, infrastructure, settle, applications, rollback |
| Launcher.AfterCertificateOrdered | run.ts:299-333 | everything after the certificate is ordered and at the install stage or later |
| Launcher.ApplicationsStages | run.ts:324-332 | the application launch has the applications stage, plus rollback exactly in docker mode when an application fails |
| Launcher.LaunchStages | run.ts:306-333 | pull iff docker mode with the server not skipped; containers and settle iff additionally every pull succeeded; applications unless a pull failed; rollback iff docker mode, the applications were reached, and one failed |
| Launcher.FailedPullStages | run.ts:312 | a failed pull ends the launch within the pull stage |
| Launcher.DockerLaunchStages | run.ts:306-327 | after successful pulls, the launch passes through pull, infrastructure and settle before the application stages |
| Launcher.RequirementsGate | run.ts:277-304 | requirements are reported iff some are missing, and then nothing else happens; certificate effects occur iff the requirements are met and key or cert is missing; install and configuration happen iff the certificate stage did not exit |
| Launcher.DockerOnlyStages | run.ts:306-319 | pull happens iff `main` reaches the launch in docker mode with the server not skipped; containers and settle iff the infrastructure launch is reached |
| Launcher.ApplicationsAndRollback | run.ts:322-332 | the applications start iff `main` gets that far; rollback happens iff additionally in docker mode and an application launch fails |
| Launcher.MainStagesCases | run.ts:277-304 | the stages of `main` by case: only requirements; only certificate on a certificate exit; otherwise certificate (if anything was generated), install, configuration and, if the writes succeeded, the launch stages |
| Launcher.CertificateExitStages | run.ts:288 | a failed certificate write ends `main` inside the certificate stage |
| Launcher.LaunchedStages | run.ts:288-304 | past the certificate: its stage if anything was generated, then install and configuration, then the launch stages if the writes succeeded |
| Launcher.AfterCertificateStages | run.ts:299-304 | install and configuration always happen after the certificate; the launch stages only when every configuration write succeeds |
| Launcher.RollbackOnApplicationFailure | run.ts:324-327 | in docker mode a failed application launch ends `main` with the container kill and then exit 1 |
| Launcher.ServerSkipped | run.ts:56-201 | skipping the server drops it everywhere: docker is not required (unless it is the package manager), the Server repository is not installed, its config is not written, it is not launched, and the Repo and Viewer environments get the backend URL as `server_url` instead of `https://localhost:<server port>/` |
| Launcher.KillNamesContainers | run.ts:239-246 | the rollback kill is `docker kill kompakkt-mongo kompakkt-redis kompakkt-mailhog`, named `KILL-CONTAINERS`, with output shown |
| Launcher.KillMatchesLaunch | run.ts:203-246 | every infrastructure process is `docker run --name <container> ...`, and the kill's arguments are exactly the Mongo, Redis and MailHog container names of those processes |
| Launcher.SigintKillsOnlyInfrastructure | run.ts:336-346 | SIGINT kills the containers iff in docker mode with the server not skipped, and does nothing else |
| Launcher.InfrastructureNamed | run.ts:203-237 | the three container processes run under the names REDIS, MONGO and MAILHOG |
| Launcher.InstallUnaffected | run.ts:127-164 | how the container processes end does not change installation |
| Launcher.InfrastructureNotAwaited | run.ts:314-317 | the container launch is not awaited: how its processes end changes nothing in what `main` does |
| Launcher.InfrastructureRollback | run.ts:314-317 | the container launch's `.catch` rolls back iff that launch happened and a container process fails; the rollback is exactly the kill, then exit 1 |
| Cli.CommandExists | kompakkt.ts:13-24 | a command exists iff `whereis` succeeded and its output contains a space (splits into more than one piece) |
| Cli.DependencyCheck | kompakkt.ts:26-34 | no more commands are probed than listed; a missing one means at least one probe |
| Cli.FirstMissingDependency | kompakkt.ts:26-34 | the probed commands are a prefix of the list; all but a final missing one exist; with none missing all are probed; a missing one is the last probed and does not exist |
| Cli.CheckDependencies | kompakkt.ts:26-34 | the loop probes and stops exactly as the dependency check says |
| Cli.EveryRepoAttempted | kompakkt.ts:36-60 | every repository is cloned whatever happens to the others, and a failure is reported exactly for a clone that failed |
| Cli.SetupRepos | kompakkt.ts:36-60 | the loop issues, per repository in order, the announcement, the clone and, on failure, the error |
| Cli.TrimEach | kompakkt.ts:112 | one trimmed line per input line, position by position |
| Cli.UsageLinesTrimmed | kompakkt.ts:100-115 | the printed usage lines are the lines of the trimmed template, each trimmed, in order; so there are as many, and none has white space at either end |
| Cli.PositionalValues | kompakkt.ts:124-127 | no more positional values than tokens |
| Cli.PositionalValuesInOrder | kompakkt.ts:124-127 | the values are those of the positional tokens, in order: a concatenation gives the first part's values then the second's; a positional token gives its value, any other token nothing |
| Cli.FindIndex | kompakkt.ts:127 | the first index holding the value, or -1 exactly when it is absent |
| Cli.PositionalArgsAfterScript | kompakkt.ts:125-128 | the arguments are the positional values after the first occurrence of the script path, or all of them when it does not occur |
| Cli.RunCli | kompakkt.ts:130-160 | the top level issues exactly the events of a session and ends as it says |
| Cli.NoArgumentsExitsFirst | kompakkt.ts:130-134 | with no arguments the tool exits with 1 before probing any dependency |
| Cli.DependenciesCheckedFirst | kompakkt.ts:134-135 | with arguments, `git` is probed before anything else happens |
| Cli.ProbesOfDependencies | kompakkt.ts:26-34 | the probes are `git` (stop if missing), then `docker` (stop if missing) |
| Cli.SessionDispatches | kompakkt.ts:135-159 | with both dependencies present, a run is the two probes followed by the chosen command |
| Cli.MissingDependencyStops | kompakkt.ts:135 | a missing-dependency error escapes iff a dependency is missing; it names the first one missing, and nothing is dispatched |
| Cli.ComposeForwardsRest | kompakkt.ts:152-154 | `compose` forwards exactly the positional arguments after the first, and finishes normally |
| Cli.UnknownCommandExits | kompakkt.ts:155-158 | an unrecognised command prints usage and exits with 1 |
| Cli.FailuresAreLogged | kompakkt.ts:71-98 | `up`, `down` and `compose` run their command, log an error iff it fails, and finish normally |
| Cli.SetupAttemptsEverything | kompakkt.ts:139-145 | for any arguments starting with `setup`: the base-image build and the Server clone always start; the Repo and Viewer clones run iff creating `uploads/` succeeds, and then all three are attempted whatever fails; the run finishes normally iff `mkdir` succeeds, and otherwise ends with the `mkdir` error |
| LegacyLauncher.Exec | run.js:34 | with no options the process's cwd is used; with no flag the run is silent |
| LegacyLauncher.Printed | run.js:37-38 | at most one printed line per chunk, each a received chunk |
| LegacyLauncher.PrintedVerbose | run.js:37-38 | when not silent, every chunk of both streams is printed as received, in order, untrimmed |
| LegacyLauncher.PrintedSilent | run.js:37-38 | when silent, exactly the stderr chunks are printed |
| LegacyLauncher.ClassifyContrast | run.js:41 | only exit code 0 is a success; this differs from the rule of `modules/utils.ts` exactly for a process ended by a signal (no code) |
| LegacyLauncher.Execute | run.js:34-44 | the runner prints the listeners' lines, then one completion line, and resolves iff the code is 0 |
| LegacyLauncher.SslArgs | run.js:29-31 | no SSL arguments without HTTPS; with it, the six arguments naming the certificate and key files |
| LegacyLauncher.UrlScheme | run.js:93-107 | every generated URL is an `https://` URL iff HTTPS is enabled, and an `http://` URL otherwise |
| LegacyLauncher.Settings | run.js:64-75 | the server config enables HTTPS as configured, and carries SSL paths (key, certificate) iff HTTPS is enabled |
| LegacyLauncher.CloneAndInstall | run.js:117-124 | a clone runs iff the checkout directory is missing; the install runs iff the directory existed or the clone succeeded |
| LegacyLauncher.RunLegacy | run.js:172-190 | the stepwise driver issues exactly the effects of `main` and settles as it does |
| LegacyLauncher.InstallFailureSwallowed | run.js:174-179 | whatever the clones and installs do, the three configuration files are written next, and everything after them, and how `main` settles, is unchanged |
| LegacyLauncher.ComposeOrder | run.js:181-189 | with compose, the two pulls come first, and compose starts iff both succeed; without it, exactly the three applications start and no docker command runs |

## Left out

- Process spawning, sockets, timers and the file system are not modelled; their answers are oracle parameters. Console colours are not modelled. The console lines `main` of run.ts prints itself (stage banners, "Success", "All requirements met") are not modelled; the reported missing requirements, the runner's forwarded lines and the command-line tool's announcements and errors are.
- Concurrency is not modelled. Each `Promise.all` group is issued in source order and judged as a whole. Interleavings of concurrent output, of the unawaited container launch, of the SIGINT handler with `main`, and of work a `Promise.all` leaves running after it has rejected (see below) are not modelled.
- Launcher.InfrastructureRollback: the container `.catch` and the application `.catch` can both fire in one run. The model states each separately and does not prove that at most one rollback happens.
- mkcert's certificate generation is not modelled: the CA and leaf are opaque values, and `createCA` and `createCert` always succeed. In modules/ssl.ts a rejection of either is outside the `.catch` of the writes, so it would reject `checkOrCreateCert` and with it `main`; the model does not have that path.
- The contents of the generated configuration and environment files are not modelled. Only their paths, the URLs (legacy launcher) and the HTTPS settings are kept.
- prepare.js, configuration.ts/js and the Playwright tests are not part of this model. Configuration values are fields of `Config`/`LegacyConfig`.
- JavaScript numbers are modelled as unbounded integers.
- `path.join` is modelled as joining with `/`, without normalisation.
- A spawn `error` event (command not found) is not modelled: a process always closes with some code or none.
- Launcher.KillNamesContainers: the kill arguments are given as words. `"kill ...".split(" ")` on the literal is not computed.
- Launcher.KillMatchesLaunch: the `docker run` argument lists are computed with `Text.Split` from the templates. Lemmas state their first three words (`run`, `--name`, the container), not the ports, volume and image words after them.
- run.ts reads `DOCKER_TAGS`, which configuration.ts does not define (it defines `DOCKER_IMAGES`). The tags are model parameters.
- run.ts logs "Success" after `installPackages` even when it resolved false. That console line is not modelled.
- Cli.FailuresAreLogged: the error text `${error}` appended to each failure message is not modelled.
- Cli.RunCli: `whereis` output is an oracle. Bun's shell escaping of interpolated arguments is not modelled.
- LegacyLauncher.RunLegacy: an unhandled rejection of `main` is modelled as `Rejected`. What Node then does with the process is not modelled.
- LegacyLauncher.Exec: `spawn` receiving a number as an argument (the ports) is kept as a number argument. Its stringification is not modelled.
- Healthcheck.WaitForServices: the three probes of one round run concurrently; they are recorded as one probe event per round.
- Healthcheck.WaitForServices: the probe oracle is keyed by round and port number. If two of the configured ports are equal, their probes in one round get the same outcome, whereas the source opens two separate connections.
- Launcher.MainStageOrder: the clones and installs run side by side under one `Promise.all` (run.ts:158-163). When one of them rejects early, the `.catch` resolves false at once and `main` goes on to the configuration writes, pulls and launches while the others are still running; their remaining spawns can then come after those later stages. The model places every clone and install in the install stage, before the configuration writes.
- Launcher.AfterCertificateOrdered: the same early rejection applies. The model puts the whole install stage before the configuration stage, which the source guarantees only when no clone or install rejects before the others finish.
- LegacyLauncher.InstallFailureSwallowed: `installPackages` of run.js (run.js:134-140) has the same `Promise.all`. After an early rejection, the remaining clones and installs can still be running, and spawning, when the configuration files are written (run.js:174-179). The model puts them all before the writes.
- Cli.SetupAttemptsEverything: when `mkdir` fails, the model assumes its rejection arrives before the base-image build and the Server clone finish. So no outcome of those two is logged, and no later clone starts.
- Ssl.ProvisionWrites: a failed `writeFile` is modelled as leaving the file as it was. In the source, a write that fails part-way (a full disk, say) can leave a truncated file, and the `process.exit(1)` in the `.catch` can cut off a sibling write still in flight. Such a broken `key.pem` or `cert.pem` would satisfy the existence check of a later run, which `Ssl.ProvisionIdempotent` does not reflect.
