/** The command builder (src/command/builder.rs): a record of program, arguments,
    environment overrides, working directory and stdin settings, updated by consuming
    builder calls; and what running, capturing and streaming one command reports, given
    the child's behaviour. */
module Builder {
  import opened Errors
  import opened Process
  import opened Stdin
  import opened Text
  import opened Stream

  /** `Command`. */
  datatype Command = Command(
    program: string,
    args: seq<string>,
    env: seq<(string, string)>,
    clearEnv: bool,
    currentDir: Option<string>,
    stdin: Option<StdinSource>,
    inheritStdin: bool)

  /** The builder never holds a stdin source while also inheriting stdin. */
  predicate StdinExclusive(c: Command)
  {
    !(c.stdin.Some? && c.inheritStdin)
  }

  /** `Command::new` (and `cmd`). */
  function New(program: string): (r: Command)
    ensures r.program == program && r.args == [] && r.env == []
    ensures !r.clearEnv && r.currentDir.None? && r.stdin.None? && !r.inheritStdin
  {
    Command.Command(program, [], [], false, None, None, false)
  }

  /** One consuming builder call. */
  datatype Step =
    | AddArg(arg: string)
    | AddArgs(more: seq<string>)
    | SetEnv(key: string, value: string)
    | ClearEnv
    | SetDir(dir: string)
    | SetStdin(data: seq<bv8>)
    | SetReader(slot: ReaderSlot)
    | SetInherit(inherit: bool)

  /** `arg`, `args`, `env`, `clear_env`, `current_dir`, `stdin`, `stdin_reader` and
      `inherit_stdin`. */
  function Apply(c: Command, step: Step): (r: Command)
    ensures r.program == c.program
    ensures r.args == c.args + StepArgs(step)
    ensures r.env == c.env + StepEnv(step)
    ensures StdinExclusive(c) ==> StdinExclusive(r)
  {
    match step
    case AddArg(a) => c.(args := c.args + [a])
    case AddArgs(more) => c.(args := c.args + more)
    case SetEnv(k, v) => c.(env := c.env + [(k, v)])
    case ClearEnv => c.(clearEnv := true)
    case SetDir(d) => c.(currentDir := Some(d))
    case SetStdin(data) => c.(stdin := Some(Bytes(data)), inheritStdin := false)
    case SetReader(slot) => c.(stdin := Some(Reader(slot)), inheritStdin := false)
    case SetInherit(inherit) =>
      if inherit then c.(inheritStdin := true, stdin := None) else c.(inheritStdin := false)
  }

  /** A command built by `New(program)` followed by `steps` in order. */
  function Build(program: string, steps: seq<Step>): (r: Command)
    ensures r.program == program
    ensures r.clearEnv <==> ClearEnv in steps
  {
    if steps == [] then New(program) else Apply(Build(program, steps[..|steps| - 1]), steps[|steps| - 1])
  }

  /** Any command a caller can build has exclusive stdin settings. */
  lemma {:induction false} BuildStdinExclusive(program: string, steps: seq<Step>)
    ensures StdinExclusive(Build(program, steps))
  {
    if steps != [] {
      BuildStdinExclusive(program, steps[..|steps| - 1]);
    }
  }

  /** The arguments one call adds. */
  function StepArgs(step: Step): seq<string>
  {
    match step
    case AddArg(a) => [a]
    case AddArgs(more) => more
    case _ => []
  }

  /** The environment overrides one call adds. */
  function StepEnv(step: Step): seq<(string, string)>
  {
    match step
    case SetEnv(k, v) => [(k, v)]
    case _ => []
  }

  /** The arguments the calls add, in call order. */
  function ArgsOf(steps: seq<Step>): seq<string>
  {
    if steps == [] then [] else ArgsOf(steps[..|steps| - 1]) + StepArgs(steps[|steps| - 1])
  }

  /** The environment overrides the calls add, in call order. */
  function EnvOf(steps: seq<Step>): seq<(string, string)>
  {
    if steps == [] then [] else EnvOf(steps[..|steps| - 1]) + StepEnv(steps[|steps| - 1])
  }

  /** `new` starts with no arguments and no overrides; `arg`/`args` append in call order and
      `env` records every pair in call order; the program never changes. */
  lemma {:induction false} BuildAccumulates(program: string, steps: seq<Step>)
    ensures Build(program, steps).program == program
    ensures Build(program, steps).args == ArgsOf(steps)
    ensures Build(program, steps).env == EnvOf(steps)
  {
    if steps != [] {
      var init := steps[..|steps| - 1];
      BuildAccumulates(program, init);
    }
  }

  /** The last call among `stdin`, `stdin_reader` and `inherit_stdin`, ignoring
      `inherit_stdin(false)`, which never touches the source. */
  function LastSourceStep(steps: seq<Step>): Option<Step>
  {
    if steps == [] then None
    else
      var last := steps[|steps| - 1];
      if last.SetStdin? || last.SetReader? || (last.SetInherit? && last.inherit) then Some(last)
      else LastSourceStep(steps[..|steps| - 1])
  }

  /** The stdin source a built command holds is decided by the last call that sets or clears
      it: `stdin` gives bytes, `stdin_reader` a reader, `inherit_stdin(true)` nothing. */
  lemma {:induction false} BuildStdinSource(program: string, steps: seq<Step>)
    ensures Build(program, steps).stdin ==
            match LastSourceStep(steps)
            case None => None
            case Some(SetStdin(data)) => Some(Bytes(data))
            case Some(SetReader(slot)) => Some(Reader(slot))
            case Some(_) => None
  {
    if steps != [] {
      var init, last := steps[..|steps| - 1], steps[|steps| - 1];
      BuildStdinSource(program, init);
      assert Build(program, steps) == Apply(Build(program, init), last);
      assert LastSourceStep(steps) == if last.SetStdin? || last.SetReader? || (last.SetInherit? && last.inherit)
                                     then Some(last) else LastSourceStep(init);
    }
  }

  /** Whether the last `inherit_stdin` call, if it comes after every `stdin` and
      `stdin_reader` call, asked to inherit. */
  function LastInherit(steps: seq<Step>): bool
  {
    if steps == [] then false
    else
      var last := steps[|steps| - 1];
      if last.SetInherit? then last.inherit
      else if last.SetStdin? || last.SetReader? then false
      else LastInherit(steps[..|steps| - 1])
  }

  /** A built command inherits stdin iff the last stdin-related call was
      `inherit_stdin(true)`. */
  lemma {:induction false} BuildInherit(program: string, steps: seq<Step>)
    ensures Build(program, steps).inheritStdin == LastInherit(steps)
  {
    if steps != [] {
      var init, last := steps[..|steps| - 1], steps[|steps| - 1];
      BuildInherit(program, init);
      assert Build(program, steps) == Apply(Build(program, init), last);
      assert LastInherit(steps) == if last.SetInherit? then last.inherit
                                   else if last.SetStdin? || last.SetReader? then false
                                   else LastInherit(init);
    }
  }

  /** `Clone for Command`: every field copied, a byte source duplicated, a reader source
      dropped. */
  function Clone(c: Command): (r: Command)
    ensures r.(stdin := c.stdin) == c
    ensures c.stdin.Some? && c.stdin.value.Bytes? ==> r.stdin == c.stdin
    ensures c.stdin.None? || c.stdin.value.Reader? ==> r.stdin.None?
  {
    c.(stdin := if c.stdin.Some? then TryClone(c.stdin.value) else None)
  }

  /** A clone keeps exclusive stdin settings, and cloning twice is cloning once. */
  lemma CloneFields(c: Command)
    ensures StdinExclusive(c) ==> StdinExclusive(Clone(c))
    ensures Clone(Clone(c)) == Clone(c)
  {
  }

  /** The stdin setting of the spawned child (`build_std_command`): piped when there is a
      source, else inherited when asked, else left at the default. */
  function StdinChoice(c: Command): (r: Stdio)
    ensures r == Piped <==> c.stdin.Some?
    ensures r == Inherit <==> c.stdin.None? && c.inheritStdin
    ensures r == Unset <==> c.stdin.None? && !c.inheritStdin
  {
    if c.stdin.Some? then Piped else if c.inheritStdin then Inherit else Unset
  }

  /** `build_std_command` with `configure_std_command`, and the given stdout/stderr. */
  function Configure(c: Command, stdout: Stdio, stderr: Stdio): (r: SpawnConfig)
    ensures r.program == c.program && r.args == c.args && r.envs == c.env
    ensures r.clearEnv == c.clearEnv && r.currentDir == c.currentDir
    ensures r.stdin == Piped <==> c.stdin.Some?
    ensures r.stdin == Inherit <==> c.stdin.None? && c.inheritStdin
    ensures r.stdout == stdout && r.stderr == stderr
  {
    SpawnConfig(c.program, c.args, c.clearEnv, c.env, c.currentDir, StdinChoice(c), stdout, stderr)
  }

  /** A cloned command whose reader source was dropped no longer gets a stdin pipe: it
      inherits stdin or gets the default, as its `inherit_stdin` flag says. */
  lemma CloneOfReaderCommand(c: Command)
    requires c.stdin.Some? && c.stdin.value.Reader?
    ensures StdinChoice(c) == Piped
    ensures StdinChoice(Clone(c)) == if c.inheritStdin then Inherit else Unset
  {
  }

  /** The child a command spawns has a stdin pipe exactly when the command has a source, so
      feeding it never reports "missing stdin pipe". */
  lemma SpawnedStdinMatchesSource(c: Command, stdout: Stdio, stderr: Stdio,
                                  script: ProcessScript, available: Option<seq<bv8>>)
    requires Spawn(0, Configure(c, stdout, stderr), script).Ok?
    ensures Spawn(0, Configure(c, stdout, stderr), script).value.stdin.Some? <==> c.stdin.Some?
    ensures FeedOutcome(Spawn(0, Configure(c, stdout, stderr), script).value, c.stdin, available).Err?
            ==> (c.stdin.value.Bytes? && script.writeError.Some?)
                || (c.stdin.value.Reader? && available.None?)
  {
  }

  /** The last override recorded for `key`, if any. */
  function LastValue(envs: seq<(string, string)>, key: string): Option<string>
  {
    if envs == [] then None
    else
      var later := LastValue(envs[1..], key);
      if later.Some? then later else if envs[0].0 == key then Some(envs[0].1) else None
  }

  /** Overrides are applied in order, so the last value recorded for a key wins; keys never
      overridden keep their base value. */
  lemma {:induction false} EnvLastWins(base: map<string, string>, envs: seq<(string, string)>,
                                       key: string)
    decreases |envs|
    ensures key in ApplyEnv(base, envs) <==> key in base || LastValue(envs, key).Some?
    ensures LastValue(envs, key).Some? ==> ApplyEnv(base, envs)[key] == LastValue(envs, key).value
    ensures LastValue(envs, key).None? && key in base ==> ApplyEnv(base, envs)[key] == base[key]
  {
    if envs != [] {
      EnvLastWins(base[envs[0].0 := envs[0].1], envs[1..], key);
    }
  }

  /** The environment of a command's child: without `clear_env` the parent's environment
      with the command's overrides, the last override of a key winning; with it, only the
      overrides. */
  lemma ChildEnvironmentOf(c: Command, stdout: Stdio, stderr: Stdio,
                           parent: map<string, string>, key: string)
    ensures var env := ChildEnvironment(Configure(c, stdout, stderr), parent);
            (key in env <==> (!c.clearEnv && key in parent) || LastValue(c.env, key).Some?)
            && (LastValue(c.env, key).Some? ==> env[key] == LastValue(c.env, key).value)
            && (LastValue(c.env, key).None? && !c.clearEnv && key in parent ==> env[key] == parent[key])
  {
    EnvLastWins(if c.clearEnv then map[] else parent, c.env, key);
  }

  /** What `run` reports (stdout and stderr inherited): a spawn or feed failure, then a
      failed wait, then the feeder's result, and only then the exit status, which on
      failure becomes a command error whose stderr text says it went to the parent. */
  function RunResult(c: Command, script: ProcessScript, available: Option<seq<bv8>>): (r: Result<()>)
    ensures script.spawnError.Some? ==> r == Err(Io(script.spawnError.value))
    ensures r.Ok? ==> script.spawnError.None? && script.wait.Exit? && script.wait.status.Success()
    ensures script.wait.Exit? && !script.wait.status.Success() ==> r.Err?
    ensures c.stdin.None? && script.spawnError.None? && script.wait.WaitFailed? ==>
              r == Err(Io(script.wait.err))
  {
    var spawned := Spawn(0, Configure(c, Inherit, Inherit), script);
    if spawned.Err? then Err(spawned.error)
    else
      var fed := FeedOutcome(spawned.value, c.stdin, available);
      if fed.Err? then Err(fed.error)
      else match script.wait
        case WaitFailed(e) => Err(Io(e))
        case Exit(status) =>
          var writer := WaitStdinWriter(fed.value);
          if writer.Err? then Err(writer.error)
          else if status.Success() then Ok(())
          else Err(Error.Command(c.program, status, InheritedStderr))
  }

  /** `Command::run`. */
  method Run(c: Command, script: ProcessScript) returns (r: Result<()>)
    modifies SlotOf(c.stdin)
    ensures r == RunResult(c, script, old(Available(c.stdin)))
  {
    var spawned := Spawn(0, Configure(c, Inherit, Inherit), script);
    if spawned.Err? {
      return Err(spawned.error);
    }
    var _, fed := FeedChildStdin(spawned.value, c.stdin);
    if fed.Err? {
      return Err(fed.error);
    }
    if script.wait.WaitFailed? {
      return Err(Io(script.wait.err));
    }
    var status := script.wait.status;
    var writer := WaitStdinWriter(fed.value);
    if writer.Err? {
      return Err(writer.error);
    }
    if status.Success() {
      r := Ok(());
    } else {
      r := Err(Error.Command(c.program, status, InheritedStderr));
    }
  }

  /** Once the child is running and waited for, `run` fails exactly when the feeder or the
      exit status does; a feeder failure is reported even when the status failed too, and a
      failed status alone is a command error naming the program, with the inherited-stderr
      text. */
  lemma RunErrorPrecedence(c: Command, script: ProcessScript, available: Option<seq<bv8>>)
    requires Spawn(0, Configure(c, Inherit, Inherit), script).Ok?
    requires FeedOutcome(Spawn(0, Configure(c, Inherit, Inherit), script).value, c.stdin, available).Ok?
    requires script.wait.Exit?
    ensures var fed := FeedOutcome(Spawn(0, Configure(c, Inherit, Inherit), script).value, c.stdin,
                                   available).value;
            var r := RunResult(c, script, available);
            (r.Ok? <==> WaitStdinWriter(fed).Ok? && script.wait.status.Success())
            && (WaitStdinWriter(fed).Err? ==> r == Err(WaitStdinWriter(fed).error))
            && (WaitStdinWriter(fed).Ok? && !script.wait.status.Success() ==>
                  r == Err(Error.Command(c.program, script.wait.status, InheritedStderr)))
  {
  }

  /** `std::process::Output` and `CommandOutput`: exit status and captured bytes. */
  datatype Output = Output(status: ExitStatus, stdout: seq<bv8>, stderr: seq<bv8>)

  /** `spawn_and_wait`: stdout and stderr piped; spawn, feed, wait collecting the output,
      then join the feeder. */
  function SpawnAndWaitResult(c: Command, script: ProcessScript, available: Option<seq<bv8>>)
    : (r: Result<Output>)
    ensures script.spawnError.Some? ==> r == Err(Io(script.spawnError.value))
    ensures r.Ok? ==> script.wait.Exit? && r.value == Output(script.wait.status, script.stdout, script.stderr)
    ensures c.stdin.None? && script.spawnError.None? ==>
              r == match script.wait
                   case WaitFailed(e) => Err(Io(e))
                   case Exit(status) => Ok(Output(status, script.stdout, script.stderr))
  {
    var spawned := Spawn(0, Configure(c, Piped, Piped), script);
    if spawned.Err? then Err(spawned.error)
    else
      var fed := FeedOutcome(spawned.value, c.stdin, available);
      if fed.Err? then Err(fed.error)
      else match script.wait
        case WaitFailed(e) => Err(Io(e))
        case Exit(status) =>
          var writer := WaitStdinWriter(fed.value);
          if writer.Err? then Err(writer.error)
          else Ok(Output(status, script.stdout, script.stderr))
  }

  /** `spawn_and_wait`. */
  method SpawnAndWait(c: Command, script: ProcessScript) returns (r: Result<Output>)
    modifies SlotOf(c.stdin)
    ensures r == SpawnAndWaitResult(c, script, old(Available(c.stdin)))
  {
    var spawned := Spawn(0, Configure(c, Piped, Piped), script);
    if spawned.Err? {
      return Err(spawned.error);
    }
    var _, fed := FeedChildStdin(spawned.value, c.stdin);
    if fed.Err? {
      return Err(fed.error);
    }
    if script.wait.WaitFailed? {
      return Err(Io(script.wait.err));
    }
    var writer := WaitStdinWriter(fed.value);
    if writer.Err? {
      return Err(writer.error);
    }
    r := Ok(Output(script.wait.status, script.stdout, script.stderr));
  }

  /** The status check of `output`: an unsuccessful status is a command error carrying the
      program and the lossily decoded stderr; a successful one returns the output as
      captured. */
  function CheckOutput(program: string, o: Output, codec: Codec): (r: Result<Output>)
    ensures r.Err? <==> !o.status.Success()
    ensures r.Err? ==> r.error == Error.Command(program, o.status, codec.lossy(o.stderr))
    ensures r.Ok? ==> r.value == o
  {
    if !o.status.Success() then Err(Error.Command(program, o.status, codec.lossy(o.stderr)))
    else Ok(o)
  }

  /** What `output` returns: `spawn_and_wait`'s failure, or the captured output put through
      the status check. */
  function OutputOf(c: Command, script: ProcessScript, available: Option<seq<bv8>>, codec: Codec)
    : (r: Result<Output>)
    ensures var waited := SpawnAndWaitResult(c, script, available);
            r.Ok? <==> waited.Ok? && waited.value.status.Success()
    ensures var waited := SpawnAndWaitResult(c, script, available);
            waited.Err? ==> r == Err(waited.error)
    ensures r.Ok? ==> r.value.stdout == script.stdout && r.value.stderr == script.stderr
  {
    var waited := SpawnAndWaitResult(c, script, available);
    if waited.Err? then Err(waited.error) else CheckOutput(c.program, waited.value, codec)
  }

  /** `Command::output`. */
  method CommandOutput(c: Command, script: ProcessScript, codec: Codec) returns (r: Result<Output>)
    modifies SlotOf(c.stdin)
    ensures r == OutputOf(c, script, old(Available(c.stdin)), codec)
  {
    var waited := SpawnAndWait(c, script);
    if waited.Err? {
      return Err(waited.error);
    }
    r := CheckOutput(c.program, waited.value, codec);
  }

  /** `Command::status`: the exit status, whatever it is, once the child ran. */
  method Status(c: Command, script: ProcessScript) returns (r: Result<ExitStatus>)
    modifies SlotOf(c.stdin)
    ensures var waited := SpawnAndWaitResult(c, script, old(Available(c.stdin)));
            r == if waited.Err? then Err(waited.error) else Ok(waited.value.status)
  {
    var waited := SpawnAndWait(c, script);
    if waited.Err? {
      return Err(waited.error);
    }
    r := Ok(waited.value.status);
  }

  /** `CommandOutput::stdout_string`: strict UTF-8 decoding, failing with the bytes. */
  function StdoutString(o: Output, codec: Codec): (r: Result<string>)
    ensures r.Ok? <==> codec.strict(o.stdout).Some?
    ensures r.Ok? ==> r.value == codec.strict(o.stdout).value
    ensures r.Err? ==> r.error == Utf8(o.stdout)
  {
    match codec.strict(o.stdout)
    case Some(text) => Ok(text)
    case None => Err(Utf8(o.stdout))
  }

  /** `CommandOutput::stderr_string`. */
  function StderrString(o: Output, codec: Codec): (r: Result<string>)
    ensures r.Ok? <==> codec.strict(o.stderr).Some?
    ensures r.Ok? ==> r.value == codec.strict(o.stderr).value
    ensures r.Err? ==> r.error == Utf8(o.stderr)
  {
    match codec.strict(o.stderr)
    case Some(text) => Ok(text)
    case None => Err(Utf8(o.stderr))
  }

  /** `lines` once the output is captured: the decoded stdout split into lines without
      their trailing carriage returns. */
  function StdoutLines(o: Output, codec: Codec): (r: Result<seq<string>>)
    ensures r.Ok? <==> codec.strict(o.stdout).Some?
    ensures r.Ok? ==> r.value == CommandLines(codec.strict(o.stdout).value)
  {
    var text := StdoutString(o, codec);
    if text.Err? then Err(text.error) else Ok(CommandLines(text.value))
  }

  /** Captured stdout of plain '\n'-terminated lines gives exactly those lines back. */
  lemma StdoutLinesRoundTrip(o: Output, codec: Codec, lines: seq<string>)
    requires forall k :: 0 <= k < |lines| ==> PlainLine(lines[k])
    requires codec.strict(o.stdout) == Some(Terminated(lines))
    ensures StdoutLines(o, codec) == Ok(lines)
  {
    CommandLinesTerminated(lines);
  }

  /** `stdout_text` (and `read`): `output`'s failure, or its stdout decoded strictly. */
  method StdoutText(c: Command, script: ProcessScript, codec: Codec) returns (r: Result<string>)
    modifies SlotOf(c.stdin)
    ensures var out := OutputOf(c, script, old(Available(c.stdin)), codec);
            r == if out.Err? then Err(out.error) else StdoutString(out.value, codec)
  {
    var out := CommandOutput(c, script, codec);
    if out.Err? {
      return Err(out.error);
    }
    r := StdoutString(out.value, codec);
  }

  /** What `lines` returns: `output`'s failure, or the lines of its decoded stdout. */
  function LinesOf(c: Command, script: ProcessScript, available: Option<seq<bv8>>, codec: Codec)
    : (r: Result<seq<string>>)
    ensures var out := OutputOf(c, script, available, codec);
            r.Ok? <==> out.Ok? && codec.strict(script.stdout).Some?
    ensures var out := OutputOf(c, script, available, codec);
            out.Err? ==> r == Err(out.error)
    ensures var out := OutputOf(c, script, available, codec);
            out.Ok? && codec.strict(script.stdout).None? ==> r == Err(Utf8(script.stdout))
    ensures r.Ok? ==> r.value == CommandLines(codec.strict(script.stdout).value)
  {
    var out := OutputOf(c, script, available, codec);
    if out.Err? then Err(out.error) else StdoutLines(out.value, codec)
  }

  /** `Command::lines`. */
  method Lines(c: Command, script: ProcessScript, codec: Codec) returns (r: Result<seq<string>>)
    modifies SlotOf(c.stdin)
    ensures r == LinesOf(c, script, old(Available(c.stdin)), codec)
  {
    var text := StdoutText(c, script, codec);
    if text.Err? {
      return Err(text.error);
    }
    r := Ok(CommandLines(text.value));
  }

  /** A command that ran but exited unsuccessfully has no lines: `lines` fails with the
      command error of `output`, whatever its stdout holds. */
  lemma LinesOfFailedCommand(c: Command, script: ProcessScript, available: Option<seq<bv8>>,
                             codec: Codec)
    requires SpawnAndWaitResult(c, script, available).Ok?
    requires !script.wait.status.Success()
    ensures LinesOf(c, script, available, codec)
            == Err(Error.Command(c.program, script.wait.status, codec.lossy(script.stderr)))
  {
  }

  /** A command that succeeds printing plain '\n'-terminated lines gets exactly those lines
      back from `lines`. */
  lemma LinesRoundTrip(c: Command, script: ProcessScript, available: Option<seq<bv8>>,
                       codec: Codec, lines: seq<string>)
    requires OutputOf(c, script, available, codec).Ok?
    requires forall k :: 0 <= k < |lines| ==> PlainLine(lines[k])
    requires codec.strict(script.stdout) == Some(Terminated(lines))
    ensures LinesOf(c, script, available, codec) == Ok(lines)
  {
    CommandLinesTerminated(lines);
  }

  /** `sh` on non-Windows platforms: the script runs under `sh -c`. */
  function Sh(script: string): (r: Command)
    ensures r.program == "sh" && r.args == ["-c", script]
    ensures r.env == [] && !r.clearEnv && r.currentDir.None? && r.stdin.None? && !r.inheritStdin
  {
    Apply(Apply(New("sh"), AddArg("-c")), AddArg(script))
  }

  /** The error left as the streaming producer's trailing item of a single command, if any:
      a failed wait is an I/O error; an unsuccessful status is a command error carrying the
      drained other stream, even if the feeder failed too; otherwise the feeder's error. */
  function SingleTrailing(program: string, wait: WaitOutcome, feeder: Result<()>, companion: string)
    : (r: Option<Error>)
    ensures r.None? <==> wait.Exit? && wait.status.Success() && feeder.Ok?
    ensures wait.WaitFailed? ==> r == Some(Io(wait.err))
    ensures wait.Exit? && !wait.status.Success() ==> r == Some(Error.Command(program, wait.status, companion))
    ensures wait.Exit? && wait.status.Success() && feeder.Err? ==> r == Some(feeder.error)
  {
    match wait
    case WaitFailed(e) => Some(Io(e))
    case Exit(status) =>
      if !status.Success() then Some(Error.Command(program, status, companion))
      else if feeder.Err? then Some(feeder.error)
      else None
  }

  /** The launch part shared by `stream_lines` and `stream_stderr`: stdout and stderr piped,
      spawn and feed; both pipes are then present. */
  function StreamLaunch(c: Command, script: ProcessScript, available: Option<seq<bv8>>)
    : (r: Result<Option<FeederHandle>>)
    ensures script.spawnError.Some? ==> r == Err(Io(script.spawnError.value))
    ensures script.spawnError.None? && c.stdin.None? ==> r == Ok(None)
    ensures r.Ok? && r.value.Some? ==> c.stdin.Some? && c.stdin.value.Reader?
    ensures r.Err? && script.spawnError.None? ==>
              (c.stdin.value.Bytes? && script.writeError.Some?) || (c.stdin.value.Reader? && available.None?)
  {
    var spawned := Spawn(0, Configure(c, Piped, Piped), script);
    if spawned.Err? then Err(spawned.error)
    else FeedOutcome(spawned.value, c.stdin, available)
  }

  /** `Command::stream_lines`: stdout is read line by line while stderr is drained on the
      side; the drained stderr text goes into a command error at the end. */
  method StreamLines(c: Command, script: ProcessScript, events: seq<ReadEvent>,
                     consumer: Consumer, codec: Codec)
    returns (r: Result<Production>)
    modifies SlotOf(c.stdin)
    ensures var launched := StreamLaunch(c, script, old(Available(c.stdin)));
            r == if launched.Err? then Err(launched.error)
                 else Ok(Produce(events, consumer, 0,
                                 SingleTrailing(c.program, script.wait, WaitStdinWriter(launched.value),
                                                CompanionText(script.stderr, codec)),
                                 SingleCommand))
  {
    r := StreamPipe(c, script, events, consumer, CompanionText(script.stderr, codec));
  }

  /** `Command::stream_stderr`: stderr is read line by line while stdout is drained on the
      side; the drained stdout text goes into the command error's stderr field. */
  method StreamStderr(c: Command, script: ProcessScript, events: seq<ReadEvent>,
                      consumer: Consumer, codec: Codec)
    returns (r: Result<Production>)
    modifies SlotOf(c.stdin)
    ensures var launched := StreamLaunch(c, script, old(Available(c.stdin)));
            r == if launched.Err? then Err(launched.error)
                 else Ok(Produce(events, consumer, 0,
                                 SingleTrailing(c.program, script.wait, WaitStdinWriter(launched.value),
                                                CompanionText(script.stdout, codec)),
                                 SingleCommand))
  {
    r := StreamPipe(c, script, events, consumer, CompanionText(script.stdout, codec));
  }

  /** Launch, then run the producer over the streamed pipe. */
  method StreamPipe(c: Command, script: ProcessScript, events: seq<ReadEvent>,
                    consumer: Consumer, companion: string)
    returns (r: Result<Production>)
    modifies SlotOf(c.stdin)
    ensures var launched := StreamLaunch(c, script, old(Available(c.stdin)));
            r == if launched.Err? then Err(launched.error)
                 else Ok(Produce(events, consumer, 0,
                                 SingleTrailing(c.program, script.wait, WaitStdinWriter(launched.value),
                                                companion),
                                 SingleCommand))
  {
    var spawned := Spawn(0, Configure(c, Piped, Piped), script);
    if spawned.Err? {
      return Err(spawned.error);
    }
    var child, fed := FeedChildStdin(spawned.value, c.stdin);
    if fed.Err? {
      return Err(fed.error);
    }
    assert child.stdout.Some? && child.stderr.Some?;
    var trailing := SingleTrailing(c.program, script.wait, WaitStdinWriter(fed.value), companion);
    var delivered, finish := ProduceLines(events, consumer, trailing, SingleCommand);
    r := Ok(Production(delivered, finish));
  }
}
