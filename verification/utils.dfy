/**
 * The process runner and file helpers of modules/utils.ts.
 *
 * A child process is not spawned here: what the runner observes of it (the
 * `data` chunks on its two streams, then the code it closes with) is passed
 * in, and what the runner does in reply (the `spawn` request, the console
 * lines, the settled outcome) is returned.
 */
module Utils {
  import opened Common
  import Text

  /** What `stat(path)` reports. */
  datatype Stat = Found | StatError(reason: string)

  /** `exists(path)`: true iff `stat` succeeds; a failing `stat` is caught, so the call never rejects. */
  function Exists(stat: Stat): (r: bool)
    ensures r <==> stat.Found?
    ensures !r ==> stat.StatError?
  {
    match stat
    case Found => true
    case StatError(_) => false
  }

  /** An element of `ExecuteOptions.args`, typed `string | number` (numbers are integers here). */
  datatype Arg = Str(text: string) | Num(value: int)

  /** Arguments that are all strings. */
  function Strs(words: seq<string>): (args: seq<Arg>)
    ensures |args| == |words| && forall i :: 0 <= i < |words| ==> args[i] == Str(words[i])
  {
    seq(|words|, i requires 0 <= i < |words| => Str(words[i]))
  }

  /** `String(arg)`. */
  function ArgString(a: Arg): (r: string)
    ensures a.Str? ==> r == a.text
    ensures a.Num? ==> Text.ParseInt(r) == Some(a.value)
  {
    match a
    case Str(t) => t
    case Num(n) => Text.IntToDecimalRoundTrip(n); Text.IntToDecimal(n)
  }

  /** `args.map((arg) => String(arg))`. */
  function StringifyArgs(args: seq<Arg>): (r: seq<string>)
    ensures |r| == |args|
    ensures forall i :: 0 <= i < |args| ==> r[i] == ArgString(args[i])
    decreases |args|
  {
    if args == [] then [] else [ArgString(args[0])] + StringifyArgs(args[1..])
  }

  /** `ExecuteOptions` after the defaults have been merged in. */
  datatype Options = Options(command: string, args: seq<Arg>, name: string, silent: bool, cwd: string, shell: bool)

  /** `Partial<ExecuteOptions>`: each option either supplied by the caller or omitted. */
  datatype PartialOptions = PartialOptions(
    command: Option<string>,
    args: Option<seq<Arg>>,
    name: Option<string>,
    silent: Option<bool>,
    cwd: Option<string>,
    shell: Option<bool>)

  /** The caller supplies no option at all. */
  const NoOptions := PartialOptions(None, None, None, None, None, None)

  /** Every option of `o` supplied explicitly. */
  function Supply(o: Options): PartialOptions
  {
    PartialOptions(Some(o.command), Some(o.args), Some(o.name), Some(o.silent), Some(o.cwd), Some(o.shell))
  }

  /** `{...defaultOpts, ...options}`, with `processCwd` standing for `process.cwd()`. */
  function Merge(p: PartialOptions, processCwd: string): (o: Options)
    ensures p.command.Some? ==> o.command == p.command.value
    ensures p.args.Some? ==> o.args == p.args.value
    ensures p.name.Some? ==> o.name == p.name.value
    ensures p.silent.Some? ==> o.silent == p.silent.value
    ensures p.cwd.Some? ==> o.cwd == p.cwd.value
    ensures p.shell.Some? ==> o.shell == p.shell.value
    ensures p.command.None? ==> o.command == ""
    ensures p.args.None? ==> o.args == []
    ensures p.name.None? ==> o.name == "PROCESS"
    ensures p.silent.None? ==> o.silent
    ensures p.cwd.None? ==> o.cwd == processCwd
    ensures p.shell.None? ==> !o.shell
  {
    Options(
      p.command.GetOr(""),
      p.args.GetOr([]),
      p.name.GetOr("PROCESS"),
      p.silent.GetOr(true),
      p.cwd.GetOr(processCwd),
      p.shell.GetOr(false))
  }

  /** With nothing supplied, the runner uses command "", no args, name "PROCESS", silent, no shell, the process's cwd. */
  lemma MergeDefaults(processCwd: string)
    ensures Merge(NoOptions, processCwd) == Options("", [], "PROCESS", true, processCwd, false)
  {
  }

  /** Options supplied in full override every default. */
  lemma MergeSupplied(o: Options, processCwd: string)
    ensures Merge(Supply(o), processCwd) == o
  {
  }

  /** The two output streams of a child process. */
  datatype Stream = Stdout | Stderr

  /** One `data` event on one of the child's streams. */
  datatype Chunk = Chunk(stream: Stream, data: string)

  /** A console line the runner prints: a forwarded chunk tagged `[name]`, or the completion line. */
  datatype LogLine =
    | Forwarded(tag: string, stream: Stream, text: string)
    | Completed(tag: string, command: string, args: seq<Arg>, code: Option<int>)

  /** The call `spawn(command, stringArgs, { cwd, shell })`. */
  datatype SpawnRequest = SpawnRequest(command: string, args: seq<string>, cwd: string, shell: bool)

  /** stdout is listened to only when not silent; stderr always. */
  predicate Forwards(silent: bool, stream: Stream)
  {
    stream == Stderr || !silent
  }

  /** The console lines the stream listeners print for `chunks`, in arrival order. */
  function Forwarding(name: string, silent: bool, chunks: seq<Chunk>): (lines: seq<LogLine>)
    ensures |lines| <= |chunks|
    ensures forall i :: 0 <= i < |lines| ==>
      lines[i].Forwarded? && lines[i].tag == name && Forwards(silent, lines[i].stream)
    decreases |chunks|
  {
    if chunks == [] then []
    else
      var c := chunks[|chunks| - 1];
      Forwarding(name, silent, chunks[..|chunks| - 1])
        + (if Forwards(silent, c.stream) then [Forwarded(name, c.stream, Text.TrimEnd(c.data))] else [])
  }

  /** The stderr chunks of `chunks`, in order. */
  function StderrOnly(chunks: seq<Chunk>): (r: seq<Chunk>)
    ensures forall i :: 0 <= i < |r| ==> r[i].stream == Stderr
    decreases |chunks|
  {
    if chunks == [] then []
    else
      var c := chunks[|chunks| - 1];
      StderrOnly(chunks[..|chunks| - 1]) + (if c.stream == Stderr then [c] else [])
  }

  /** Not silent: every chunk of both streams is printed, one line each, in order, trimmed at the end. */
  lemma {:induction false} ForwardingVerbose(name: string, chunks: seq<Chunk>)
    ensures |Forwarding(name, false, chunks)| == |chunks|
    ensures forall i :: 0 <= i < |chunks| ==>
      Forwarding(name, false, chunks)[i] == Forwarded(name, chunks[i].stream, Text.TrimEnd(chunks[i].data))
    decreases |chunks|
  {
    if chunks != [] {
      ForwardingVerbose(name, chunks[..|chunks| - 1]);
    }
  }

  /** Silent: exactly the stderr chunks are printed, as if they were all the child wrote. */
  lemma {:induction false} ForwardingSilent(name: string, chunks: seq<Chunk>)
    ensures Forwarding(name, true, chunks) == Forwarding(name, false, StderrOnly(chunks))
    decreases |chunks|
  {
    if chunks != [] {
      var init := chunks[..|chunks| - 1];
      var c := chunks[|chunks| - 1];
      ForwardingSilent(name, init);
      if c.stream == Stderr {
        assert StderrOnly(chunks) == StderrOnly(init) + [c];
        assert (StderrOnly(init) + [c])[..|StderrOnly(init)|] == StderrOnly(init);
      } else {
        assert StderrOnly(chunks) == StderrOnly(init);
      }
    }
  }

  /** `code === 0 || code === null ? resolve("Success") : reject("Failure")`. */
  function Classify(code: Option<int>): (r: Outcome)
  {
    if code == None || code == Some(0) then Success else Failure
  }

  /** A closed child counts as a success exactly when it exited with 0 or was ended by a signal (null code). */
  lemma ClassifySuccess(code: Option<int>)
    ensures Classify(code) == Success <==> (code.None? || code.value == 0)
    ensures Classify(code) == Failure <==> (code.Some? && code.value != 0)
  {
  }

  /**
   * `execute(options)`: merges the options over the defaults, spawns the command
   * with stringified arguments, prints each chunk the listeners receive, and on
   * `close` prints one completion line and settles by the exit code.
   */
  method Execute(options: PartialOptions, processCwd: string, chunks: seq<Chunk>, code: Option<int>)
    returns (spawned: SpawnRequest, log: seq<LogLine>, result: Outcome)
    ensures var o := Merge(options, processCwd);
      && spawned == SpawnRequest(o.command, StringifyArgs(o.args), o.cwd, o.shell)
      && log == Forwarding(o.name, o.silent, chunks) + [Completed(o.name, o.command, o.args, code)]
    ensures result == Success <==> (code.None? || code.value == 0)
  {
    var o := Merge(options, processCwd);
    spawned := SpawnRequest(o.command, StringifyArgs(o.args), o.cwd, o.shell);
    log := [];
    var i := 0;
    while i < |chunks|
      invariant 0 <= i <= |chunks|
      invariant log == Forwarding(o.name, o.silent, chunks[..i])
    {
      var c := chunks[i];
      assert chunks[..i + 1][..i] == chunks[..i] && chunks[..i + 1][i] == c;
      if !o.silent || c.stream == Stderr {
        log := log + [Forwarded(o.name, c.stream, Text.TrimEnd(c.data))];
      }
      i := i + 1;
    }
    assert chunks[..|chunks|] == chunks;
    log := log + [Completed(o.name, o.command, o.args, code)];
    result := Classify(code);
  }
}
