/**
 * The `kompakkt` command-line tool of kompakkt.ts: positional arguments, the
 * `whereis` rule for command existence, the dependency check, the repository
 * setup loop, and the dispatch over `setup`, `up`, `down` and `compose`.
 *
 * Shell invocations are not run: what `whereis` prints (or that it threw) and
 * whether each other shell command succeeds are oracles in `CliEnv`, and the
 * tool is modelled by the events it issues and how it ends.
 */
module Cli {
  import opened Common
  import Text

  /** The shell commands the tool runs through Bun's `$`. */
  datatype ShellCommand =
    | Whereis(command: string)
    | Clone(name: string, branch: string, url: string)
    | BuildBaseImage
    | ComposeUp
    | ComposeDown
    | ComposePassThrough(args: seq<string>)

  /** What the tool does, in order. */
  datatype Event =
    | Shell(command: ShellCommand)
    | MakeDir(path: string)
    | Info(text: string)
    | Error(text: string)
    | Usage(text: string)

  /** An error that escapes the top-level `await`: a missing dependency, or the rejected `mkdir` of `setup`. */
  datatype Escaped = MissingDependency(message: string) | MkdirFailed

  /** How a run ends: normally, by `process.exit(code)`, or by an escaping error. */
  datatype Ending = Finished | Exited(code: int) | Threw(error: Escaped)

  /**
   * The environment: what `whereis cmd` prints (`None` when the shell call
   * throws), whether any other shell command succeeds, and whether creating
   * `uploads/` succeeds.
   */
  datatype CliEnv = CliEnv(whereis: string -> Option<string>, succeeds: ShellCommand -> bool, mkdirOk: bool)

  // ---------------------------------------------------------------- command existence

  /** `commandExists(command)`: true iff `whereis` printed something that splits on a space into more than one piece; false when it threw. */
  function CommandExists(output: Option<string>): (found: bool)
    ensures found <==> output.Some? && ' ' in output.value
  {
    match output
    case None => false
    case Some(text) =>
      Text.SplitIsProper(text, ' ');
      |Text.Split(text, ' ')| > 1
  }

  // ---------------------------------------------------------------- dependency check

  const Dependencies := ["git", "docker"]

  function DependencyMessage(dependency: string): string
  {
    "Dependency " + dependency + " not found"
  }

  /** The commands probed in turn, and the first one found missing, if any. */
  function DependencyCheck(deps: seq<string>, whereis: string -> Option<string>): (r: (seq<string>, Option<string>))
    ensures |r.0| <= |deps|
    ensures r.1.Some? ==> |r.0| >= 1
    decreases |deps|
  {
    if deps == [] then ([], None)
    else if !CommandExists(whereis(deps[0])) then ([deps[0]], Some(deps[0]))
    else
      var rest := DependencyCheck(deps[1..], whereis);
      ([deps[0]] + rest.0, rest.1)
  }

  /**
   * The check stops at the first missing dependency: the probed commands are a
   * prefix of the list ending at it, every earlier one exists, and no later one
   * is probed; with none missing, every dependency is probed and exists.
   */
  lemma {:induction false} FirstMissingDependency(deps: seq<string>, whereis: string -> Option<string>)
    ensures var (probed, missing) := DependencyCheck(deps, whereis);
      && probed == deps[..|probed|]
      && (forall j :: 0 <= j < |probed| - (if missing.Some? then 1 else 0) ==> CommandExists(whereis(deps[j])))
      && (missing.None? ==> probed == deps)
      && (missing.Some? ==> |probed| >= 1 && missing.value == deps[|probed| - 1] && !CommandExists(whereis(missing.value)))
    decreases |deps|
  {
    if deps != [] && CommandExists(whereis(deps[0])) {
      FirstMissingDependency(deps[1..], whereis);
      var probed := DependencyCheck(deps[1..], whereis).0;
      assert deps[..|probed| + 1] == [deps[0]] + deps[1..][..|probed|];
    }
  }

  lemma {:induction false} DependencyCheckSkips(deps: seq<string>, whereis: string -> Option<string>, i: nat)
    requires i <= |deps|
    requires forall j :: 0 <= j < i ==> CommandExists(whereis(deps[j]))
    ensures DependencyCheck(deps, whereis)
         == (deps[..i] + DependencyCheck(deps[i..], whereis).0, DependencyCheck(deps[i..], whereis).1)
    decreases i
  {
    if i > 0 {
      DependencyCheckSkips(deps[1..], whereis, i - 1);
      assert deps[1..][i - 1..] == deps[i..];
      var tail := DependencyCheck(deps[i..], whereis);
      assert DependencyCheck(deps[1..], whereis) == (deps[1..][..i - 1] + tail.0, tail.1);
      assert deps[..i] + tail.0 == [deps[0]] + (deps[1..][..i - 1] + tail.0);
    } else {
      assert deps[..0] + DependencyCheck(deps[0..], whereis).0 == DependencyCheck(deps, whereis).0 by {
        assert deps[0..] == deps;
      }
    }
  }

  /** `checkDependencies()` over `deps`: probes them in order, throwing at the first missing one. */
  method CheckDependencies(deps: seq<string>, whereis: string -> Option<string>)
    returns (probed: seq<string>, missing: Option<string>)
    ensures (probed, missing) == DependencyCheck(deps, whereis)
  {
    probed := [];
    var i := 0;
    while i < |deps|
      invariant 0 <= i <= |deps|
      invariant probed == deps[..i]
      invariant forall j :: 0 <= j < i ==> CommandExists(whereis(deps[j]))
    {
      var dependency := deps[i];
      probed := probed + [dependency];
      var found := CommandExists(whereis(dependency));
      if !found {
        DependencyCheckSkips(deps, whereis, i);
        assert deps[i..][0] == dependency;
        assert deps[..i + 1] == deps[..i] + [dependency];
        missing := Some(dependency);
        assert DependencyCheck(deps[i..], whereis) == ([dependency], Some(dependency));
        assert (probed, missing) == DependencyCheck(deps, whereis);
        return;
      }
      i := i + 1;
    }
    DependencyCheckSkips(deps, whereis, i);
    assert deps[..i] == deps && deps[i..] == [];
    assert DependencyCheck(deps[i..], whereis) == ([], None);
    assert deps[..i] + [] == deps;
    missing := None;
    assert (probed, missing) == DependencyCheck(deps, whereis);
  }

  // ---------------------------------------------------------------- repository setup

  datatype RepoSpec = RepoSpec(name: string, branch: string, url: string)

  /** The repositories `setup` clones, in order, each at its pinned branch. */
  const Repos := [
    RepoSpec("Server", "test-bun-runtime", "https://github.com/Kompakkt/Server.git"),
    RepoSpec("Repo", "debug-plugin-test", "https://github.com/Kompakkt/Repo.git"),
    RepoSpec("Viewer", "debug-plugin-test", "https://github.com/Kompakkt/Viewer.git")]

  function CloneCommand(r: RepoSpec): ShellCommand
  {
    Clone(r.name, r.branch, r.url)
  }

  function CloneAnnouncement(name: string): string
  {
    "Cloning " + name + "..."
  }

  function CloneFailure(name: string): string
  {
    "Failed to clone " + name
  }

  /** The events of one clone attempt: announced, run, and reported when it fails. */
  function CloneAttempt(r: RepoSpec, succeeds: ShellCommand -> bool): seq<Event>
  {
    [Info(CloneAnnouncement(r.name)), Shell(CloneCommand(r))]
    + (if succeeds(CloneCommand(r)) then [] else [Error(CloneFailure(r.name))])
  }

  /** The events of cloning `repos` in turn. */
  function CloneAll(repos: seq<RepoSpec>, succeeds: ShellCommand -> bool): seq<Event>
    decreases |repos|
  {
    if repos == [] then [] else CloneAttempt(repos[0], succeeds) + CloneAll(repos[1..], succeeds)
  }

  /** Every repository is attempted whatever happens to the others, and a failure is reported exactly for a clone that failed. */
  lemma {:induction false} EveryRepoAttempted(repos: seq<RepoSpec>, succeeds: ShellCommand -> bool)
    requires forall i, j :: 0 <= i < j < |repos| ==> repos[i].name != repos[j].name
    ensures forall i :: 0 <= i < |repos| ==> Shell(CloneCommand(repos[i])) in CloneAll(repos, succeeds)
    ensures forall i :: 0 <= i < |repos| ==>
      (Error(CloneFailure(repos[i].name)) in CloneAll(repos, succeeds) <==> !succeeds(CloneCommand(repos[i])))
    decreases |repos|
  {
    if repos != [] {
      var rest := repos[1..];
      EveryRepoAttempted(rest, succeeds);
      var first := CloneAttempt(repos[0], succeeds);
      assert CloneAll(repos, succeeds) == first + CloneAll(rest, succeeds);
      forall i | 0 <= i < |repos|
        ensures Error(CloneFailure(repos[i].name)) in CloneAll(repos, succeeds) <==> !succeeds(CloneCommand(repos[i]))
      {
        if i == 0 {
          if Error(CloneFailure(repos[0].name)) in CloneAll(rest, succeeds) {
            FailureNamesRepo(rest, succeeds, repos[0].name);
            assert false;
          }
        } else {
          assert repos[i] == rest[i - 1];
          if Error(CloneFailure(repos[i].name)) in first {
            CloneFailureInjective(repos[i].name, repos[0].name);
          }
        }
      }
    }
  }

  /** A reported clone failure names one of the repositories. */
  lemma {:induction false} FailureNamesRepo(repos: seq<RepoSpec>, succeeds: ShellCommand -> bool, name: string)
    requires Error(CloneFailure(name)) in CloneAll(repos, succeeds)
    ensures exists k :: 0 <= k < |repos| && repos[k].name == name
    decreases |repos|
  {
    var first := CloneAttempt(repos[0], succeeds);
    assert CloneAll(repos, succeeds) == first + CloneAll(repos[1..], succeeds);
    if Error(CloneFailure(name)) in first {
      CloneFailureInjective(name, repos[0].name);
    } else {
      FailureNamesRepo(repos[1..], succeeds, name);
      var k :| 0 <= k < |repos[1..]| && repos[1..][k].name == name;
      assert repos[k + 1].name == name;
    }
  }

  lemma CloneFailureInjective(a: string, b: string)
    requires CloneFailure(a) == CloneFailure(b)
    ensures a == b
  {
    var n := |"Failed to clone "|;
    assert a == CloneFailure(a)[n..];
    assert b == CloneFailure(b)[n..];
  }

  /** `setupRepos()`: each repository in turn, a failed clone logged and the loop continued. */
  method SetupRepos(repos: seq<RepoSpec>, succeeds: ShellCommand -> bool) returns (events: seq<Event>)
    ensures events == CloneAll(repos, succeeds)
  {
    events := [];
    var i := 0;
    while i < |repos|
      invariant 0 <= i <= |repos|
      invariant events + CloneAll(repos[i..], succeeds) == CloneAll(repos, succeeds)
    {
      var r := repos[i];
      events := events + [Info(CloneAnnouncement(r.name)), Shell(CloneCommand(r))];
      if !succeeds(CloneCommand(r)) {
        events := events + [Error(CloneFailure(r.name))];
      }
      assert repos[i..][1..] == repos[i + 1..];
      i := i + 1;
    }
  }

  // ---------------------------------------------------------------- usage

  const UsageSource := "\nUsage: kompakkt [command]\nCommands:\n- setup     Setup repos and build base image\n- up        Start deployment\n- down      Stop deployment\n- compose   Pass arguments to docker compose\n"

  /** Each line trimmed. */
  function TrimEach(lines: seq<string>): (trimmed: seq<string>)
    ensures |trimmed| == |lines|
    ensures forall i :: 0 <= i < |lines| ==> trimmed[i] == Text.Trim(lines[i])
  {
    seq(|lines|, i requires 0 <= i < |lines| => Text.Trim(lines[i]))
  }

  /** `printUsage()`'s text: the template trimmed, split into lines, each line trimmed, joined again. */
  function FormatUsage(text: string): string
  {
    Text.Join(TrimEach(Text.Split(Text.Trim(text), '\n')), '\n')
  }

  /** Trimming keeps a piece of the original, so it adds no character. */
  lemma TrimKeeps(s: string)
    ensures forall c :: c in Text.Trim(s) ==> c in s
  {
    var t := Text.TrimStart(s);
    var r := Text.TrimEnd(t);
    forall c | c in r
      ensures c in s
    {
      var k :| 0 <= k < |r| && r[k] == c;
      assert t[k] == c;
      assert s[|s| - |t| + k] == c;
    }
  }

  lemma TrimmedLinesHaveNoBreak(lines: seq<string>)
    requires forall i :: 0 <= i < |lines| ==> '\n' !in lines[i]
    ensures forall i :: 0 <= i < |lines| ==> '\n' !in TrimEach(lines)[i] && Text.Trimmed(TrimEach(lines)[i])
  {
    forall i | 0 <= i < |lines|
      ensures '\n' !in TrimEach(lines)[i]
    {
      TrimKeeps(lines[i]);
    }
  }

  /**
   * The printed usage lines are the lines of the trimmed template, each
   * trimmed: as many of them, in order, none with white space at either end.
   */
  lemma UsageLinesTrimmed(text: string)
    ensures Text.Split(FormatUsage(text), '\n') == TrimEach(Text.Split(Text.Trim(text), '\n'))
    ensures |Text.Split(FormatUsage(text), '\n')| == |Text.Split(Text.Trim(text), '\n')|
    ensures forall line :: line in Text.Split(FormatUsage(text), '\n') ==> Text.Trimmed(line)
  {
    var lines := Text.Split(Text.Trim(text), '\n');
    TrimmedLinesHaveNoBreak(lines);
    Text.SplitJoin(TrimEach(lines), '\n');
  }

  // ---------------------------------------------------------------- arguments and dispatch

  /** A token of `parseArgs`: a positional value, or anything else (an option, the `--` terminator). */
  datatype Token = Positional(value: string) | Other(raw: string)

  /** The values of the positional tokens, in order. */
  function PositionalValues(tokens: seq<Token>): (values: seq<string>)
    ensures |values| <= |tokens|
    decreases |tokens|
  {
    if tokens == [] then []
    else (if tokens[0].Positional? then [tokens[0].value] else []) + PositionalValues(tokens[1..])
  }

  /**
   * The values keep the tokens' order: those of a concatenation are those of
   * the first part, then those of the second; a positional token gives its
   * value and any other token gives nothing.
   */
  lemma {:induction false} PositionalValuesInOrder(a: seq<Token>, b: seq<Token>)
    ensures PositionalValues(a + b) == PositionalValues(a) + PositionalValues(b)
    ensures forall v :: PositionalValues([Positional(v)]) == [v]
    ensures forall raw :: PositionalValues([Other(raw)]) == []
    decreases |a|
  {
    if a != [] {
      assert (a + b)[1..] == a[1..] + b;
      PositionalValuesInOrder(a[1..], b);
    } else {
      assert a + b == b;
    }
    forall v
      ensures PositionalValues([Positional(v)]) == [v]
    {
      assert [Positional(v)][1..] == [];
    }
    forall raw
      ensures PositionalValues([Other(raw)]) == []
    {
      assert [Other(raw)][1..] == [];
    }
  }

  /** `findIndex((v) => v === x)`: the first index holding `x`, or -1. */
  function FindIndex(values: seq<string>, x: string): (k: int)
    ensures -1 <= k < |values|
    ensures k >= 0 ==> values[k] == x && forall j :: 0 <= j < k ==> values[j] != x
    ensures k == -1 ==> x !in values
    decreases |values|
  {
    if values == [] then -1
    else if values[0] == x then 0
    else
      var k := FindIndex(values[1..], x);
      if k == -1 then -1 else k + 1
  }

  /** The positional arguments after the script's own path, or all of them when the path is not among them. */
  function PositionalArgs(tokens: seq<Token>, scriptPath: string): seq<string>
  {
    var values := PositionalValues(tokens);
    values[FindIndex(values, scriptPath) + 1..]
  }

  /** The arguments are the positional values after the first occurrence of the script path, or all of them when it does not occur. */
  lemma PositionalArgsAfterScript(tokens: seq<Token>, scriptPath: string)
    ensures var values := PositionalValues(tokens);
      var args := PositionalArgs(tokens, scriptPath);
      && (scriptPath !in values ==> args == values)
      && (scriptPath in values ==>
            |args| < |values| && values[|values| - |args| - 1] == scriptPath
            && values == values[..|values| - |args|] + args
            && scriptPath !in values[..|values| - |args| - 1])
  {
    var values := PositionalValues(tokens);
    var k := FindIndex(values, scriptPath);
    var args := values[k + 1..];
    assert args == PositionalArgs(tokens, scriptPath);
    if k == -1 {
      assert args == values;
    } else {
      assert |values| - |args| - 1 == k;
      assert values == values[..k + 1] + args;
      assert forall j :: 0 <= j < k ==> values[..k][j] == values[j];
      assert scriptPath !in values[..k];
    }
  }

  /** What `setup` starts at once: `mkdir`, the base-image build, and the first clone of `setupRepos`. */
  function SetupStarts(): seq<Event>
  {
    [MakeDir("uploads/"), Info("Setting up base image..."), Shell(BuildBaseImage),
     Info(CloneAnnouncement(Repos[0].name)), Shell(CloneCommand(Repos[0]))]
  }

  /**
   * What `setup` does: create `uploads/`, build the base image, clone the
   * repositories one after another; the three run concurrently. A failed
   * `mkdir` rejects the `Promise.all` and the process ends on that uncaught
   * error, with only what had started by then: the build and the first clone.
   */
  function SetupEvents(env: CliEnv): seq<Event>
  {
    if !env.mkdirOk then SetupStarts()
    else
      [MakeDir("uploads/"), Info("Setting up base image..."), Shell(BuildBaseImage)]
      + (if env.succeeds(BuildBaseImage) then [] else [Error("Failed to build base image")])
      + CloneAll(Repos, env.succeeds)
  }

  /** A command wrapped in `try`/`catch`: announced, run, and its failure logged rather than rethrown. */
  function Guarded(announce: string, command: ShellCommand, failure: string, env: CliEnv): seq<Event>
  {
    [Info(announce), Shell(command)] + (if env.succeeds(command) then [] else [Error(failure)])
  }

  /** The events of the chosen command, and how the run ends. */
  function DispatchEvents(args: seq<string>, env: CliEnv): (seq<Event>, Ending)
    requires args != []
  {
    if args[0] == "setup" then (SetupEvents(env), if env.mkdirOk then Finished else Threw(MkdirFailed))
    else if args[0] == "up" then (Guarded("Starting deployment...", ComposeUp, "Failed to start deployment", env), Finished)
    else if args[0] == "down" then (Guarded("Stopping deployment...", ComposeDown, "Failed to stop deployment", env), Finished)
    else if args[0] == "compose" then
      (Guarded("Passing arguments to docker compose...", ComposePassThrough(args[1..]),
               "Failed to pass arguments to docker compose", env), Finished)
    else ([Error("Unknown command: " + args[0]), Usage(FormatUsage(UsageSource))], Exited(1))
  }

  /** A whole run of the tool on the given tokens. */
  function Session(tokens: seq<Token>, scriptPath: string, env: CliEnv): (seq<Event>, Ending)
  {
    var args := PositionalArgs(tokens, scriptPath);
    if args == [] then ([Error("No positional arguments provided"), Usage(FormatUsage(UsageSource))], Exited(1))
    else
      var (probed, missing) := DependencyCheck(Dependencies, env.whereis);
      var probes := seq(|probed|, i requires 0 <= i < |probed| => Shell(Whereis(probed[i])));
      if missing.Some? then (probes, Threw(MissingDependency(DependencyMessage(missing.value))))
      else
        var (events, ending) := DispatchEvents(args, env);
        (probes + events, ending)
  }

  /** The top level of kompakkt.ts: arguments, dependency check, then the chosen command. */
  method RunCli(tokens: seq<Token>, scriptPath: string, env: CliEnv) returns (events: seq<Event>, ending: Ending)
    ensures (events, ending) == Session(tokens, scriptPath, env)
  {
    var args := PositionalArgs(tokens, scriptPath);
    if |args| == 0 {
      events := [Error("No positional arguments provided"), Usage(FormatUsage(UsageSource))];
      ending := Exited(1);
      return;
    }
    var probed, missing := CheckDependencies(Dependencies, env.whereis);
    events := seq(|probed|, i requires 0 <= i < |probed| => Shell(Whereis(probed[i])));
    if missing.Some? {
      ending := Threw(MissingDependency(DependencyMessage(missing.value)));
      return;
    }
    var firstArg := args[0];
    if firstArg == "setup" {
      if env.mkdirOk {
        var repoEvents := SetupRepos(Repos, env.succeeds);
        events := events + ([MakeDir("uploads/"), Info("Setting up base image..."), Shell(BuildBaseImage)]
                            + (if env.succeeds(BuildBaseImage) then [] else [Error("Failed to build base image")])
                            + repoEvents);
        ending := Finished;
      } else {
        events := events + SetupStarts();
        ending := Threw(MkdirFailed);
      }
    } else if firstArg == "up" {
      events := events + Guarded("Starting deployment...", ComposeUp, "Failed to start deployment", env);
      ending := Finished;
    } else if firstArg == "down" {
      events := events + Guarded("Stopping deployment...", ComposeDown, "Failed to stop deployment", env);
      ending := Finished;
    } else if firstArg == "compose" {
      events := events + Guarded("Passing arguments to docker compose...", ComposePassThrough(args[1..]),
                                 "Failed to pass arguments to docker compose", env);
      ending := Finished;
    } else {
      events := events + [Error("Unknown command: " + firstArg), Usage(FormatUsage(UsageSource))];
      ending := Exited(1);
    }
  }

  // ---------------------------------------------------------------- properties of a run

  /** With no positional arguments the tool prints usage and exits with 1 before probing any dependency. */
  lemma NoArgumentsExitsFirst(tokens: seq<Token>, scriptPath: string, env: CliEnv)
    requires PositionalArgs(tokens, scriptPath) == []
    ensures Session(tokens, scriptPath, env).1 == Exited(1)
    ensures forall e :: e in Session(tokens, scriptPath, env).0 ==> !(e.Shell? && e.command.Whereis?)
  {
  }

  /** With arguments, the dependency check comes first: `git` is probed before anything else happens. */
  lemma DependenciesCheckedFirst(tokens: seq<Token>, scriptPath: string, env: CliEnv)
    requires PositionalArgs(tokens, scriptPath) != []
    ensures |Session(tokens, scriptPath, env).0| >= 1
    ensures Session(tokens, scriptPath, env).0[0] == Shell(Whereis("git"))
  {
  }

  /** The two dependencies probed in order. */
  lemma ProbesOfDependencies(whereis: string -> Option<string>)
    ensures !CommandExists(whereis("git")) ==> DependencyCheck(Dependencies, whereis) == (["git"], Some("git"))
    ensures CommandExists(whereis("git")) && !CommandExists(whereis("docker")) ==>
      DependencyCheck(Dependencies, whereis) == (["git", "docker"], Some("docker"))
    ensures CommandExists(whereis("git")) && CommandExists(whereis("docker")) ==>
      DependencyCheck(Dependencies, whereis) == (["git", "docker"], None)
  {
    assert Dependencies[0] == "git" && Dependencies[1..] == ["docker"] && ["docker"][1..] == [];
    if CommandExists(whereis("git")) {
      var rest := DependencyCheck(["docker"], whereis);
      assert DependencyCheck(Dependencies, whereis) == (["git"] + rest.0, rest.1);
      if CommandExists(whereis("docker")) {
        assert DependencyCheck([], whereis) == ([], None);
        assert rest == (["docker"] + [], None);
        assert ["docker"] + [] == ["docker"];
      } else {
        assert rest == (["docker"], Some("docker"));
      }
      assert ["git"] + ["docker"] == ["git", "docker"];
    }
  }

  /** With both dependencies found, the run is the two probes followed by the chosen command. */
  lemma SessionDispatches(tokens: seq<Token>, scriptPath: string, env: CliEnv)
    requires PositionalArgs(tokens, scriptPath) != []
    requires CommandExists(env.whereis("git")) && CommandExists(env.whereis("docker"))
    ensures var dispatched := DispatchEvents(PositionalArgs(tokens, scriptPath), env);
      Session(tokens, scriptPath, env)
      == ([Shell(Whereis("git")), Shell(Whereis("docker"))] + dispatched.0, dispatched.1)
  {
    ProbesOfDependencies(env.whereis);
    var probed := ["git", "docker"];
    assert seq(|probed|, i requires 0 <= i < |probed| => Shell(Whereis(probed[i])))
        == [Shell(Whereis("git")), Shell(Whereis("docker"))];
  }

  /** A missing dependency ends the run with the error naming the first one missing, before any command is dispatched. */
  lemma MissingDependencyStops(tokens: seq<Token>, scriptPath: string, env: CliEnv)
    requires PositionalArgs(tokens, scriptPath) != []
    ensures var ending := Session(tokens, scriptPath, env).1;
      (ending.Threw? && ending.error.MissingDependency?)
      <==> !(CommandExists(env.whereis("git")) && CommandExists(env.whereis("docker")))
    ensures !CommandExists(env.whereis("git")) ==>
      Session(tokens, scriptPath, env) == ([Shell(Whereis("git"))], Threw(MissingDependency(DependencyMessage("git"))))
    ensures CommandExists(env.whereis("git")) && !CommandExists(env.whereis("docker")) ==>
      Session(tokens, scriptPath, env)
      == ([Shell(Whereis("git")), Shell(Whereis("docker"))], Threw(MissingDependency(DependencyMessage("docker"))))
  {
    ProbesOfDependencies(env.whereis);
    if !CommandExists(env.whereis("git")) {
      var probed := ["git"];
      assert seq(|probed|, i requires 0 <= i < |probed| => Shell(Whereis(probed[i]))) == [Shell(Whereis("git"))];
    } else if !CommandExists(env.whereis("docker")) {
      var probed := ["git", "docker"];
      assert seq(|probed|, i requires 0 <= i < |probed| => Shell(Whereis(probed[i])))
          == [Shell(Whereis("git")), Shell(Whereis("docker"))];
    } else {
      SessionDispatches(tokens, scriptPath, env);
    }
  }

  /** `compose` forwards exactly the positional arguments after the first. */
  lemma ComposeForwardsRest(tokens: seq<Token>, scriptPath: string, env: CliEnv)
    requires var args := PositionalArgs(tokens, scriptPath); args != [] && args[0] == "compose"
    requires CommandExists(env.whereis("git")) && CommandExists(env.whereis("docker"))
    ensures var args := PositionalArgs(tokens, scriptPath);
      Shell(ComposePassThrough(args[1..])) in Session(tokens, scriptPath, env).0
      && Session(tokens, scriptPath, env).1 == Finished
  {
    SessionDispatches(tokens, scriptPath, env);
  }

  /** An unrecognised command prints usage and exits with 1. */
  lemma UnknownCommandExits(tokens: seq<Token>, scriptPath: string, env: CliEnv)
    requires var args := PositionalArgs(tokens, scriptPath);
      args != [] && args[0] != "setup" && args[0] != "up" && args[0] != "down" && args[0] != "compose"
    requires CommandExists(env.whereis("git")) && CommandExists(env.whereis("docker"))
    ensures Session(tokens, scriptPath, env).1 == Exited(1)
    ensures Usage(FormatUsage(UsageSource)) in Session(tokens, scriptPath, env).0
  {
    SessionDispatches(tokens, scriptPath, env);
  }

  /** `up`, `down` and `compose` log a failing shell command and finish normally. */
  lemma FailuresAreLogged(args: seq<string>, env: CliEnv)
    requires args != [] && (args[0] == "up" || args[0] == "down" || args[0] == "compose")
    ensures DispatchEvents(args, env).1 == Finished
    ensures var command := if args[0] == "up" then ComposeUp else if args[0] == "down" then ComposeDown
                           else ComposePassThrough(args[1..]);
      Shell(command) in DispatchEvents(args, env).0
      && (!env.succeeds(command) <==> exists e :: e in DispatchEvents(args, env).0 && e.Error?)
  {
    var events := DispatchEvents(args, env).0;
    if !(args[0] == "up" || args[0] == "down") {
      assert args[0] == "compose";
    }
    assert events[1].Shell?;
    if |events| > 2 {
      assert events[2].Error?;
    }
  }

  /**
   * `setup` always starts the base-image build and the Server clone. When
   * `mkdir` succeeds it attempts all three repositories whichever of them fail,
   * and finishes normally; when `mkdir` fails the error escapes before the Repo
   * and Viewer clones start.
   */
  lemma SetupAttemptsEverything(args: seq<string>, env: CliEnv)
    requires args != [] && args[0] == "setup"
    ensures Shell(BuildBaseImage) in DispatchEvents(args, env).0
    ensures Shell(CloneCommand(Repos[0])) in DispatchEvents(args, env).0
    ensures forall i :: 0 <= i < |Repos| ==>
      (Shell(CloneCommand(Repos[i])) in DispatchEvents(args, env).0 <==> env.mkdirOk || i == 0)
    ensures DispatchEvents(args, env).1 == Finished <==> env.mkdirOk
    ensures !env.mkdirOk ==> DispatchEvents(args, env).1 == Threw(MkdirFailed)
  {
    assert Repos[0].name[0] == 'S' && Repos[1].name[0] == 'R' && Repos[2].name[0] == 'V';
    if env.mkdirOk {
      EveryRepoAttempted(Repos, env.succeeds);
    } else {
      forall i | 0 < i < |Repos|
        ensures Shell(CloneCommand(Repos[i])) !in SetupStarts()
      {
        assert CloneCommand(Repos[i]) != CloneCommand(Repos[0]);
      }
    }
  }
}
