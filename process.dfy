/** The operating-system boundary the command engine runs against: process spawning, pipes,
    waiting and thread joins. None of it is executed; each child's behaviour is given as a
    `ProcessScript`, and the model reasons about how the toolkit reacts to it. */
module Process {
  import opened Errors

  /** A child's standard stream. */
  datatype Stream = StdinStream | StdoutStream | StderrStream

  /** A pipe end, named by the pipeline stage whose child owns it and the stream it carries. */
  datatype Pipe = Pipe(stage: nat, stream: Stream)

  /** How one standard stream of a child is set up (`std::process::Stdio`): left at the
      default, piped to the parent, inherited from the parent, or fed from another child's
      pipe. */
  datatype Stdio = Unset | Piped | Inherit | FromPipe(pipe: Pipe)

  /** Everything `std::process::Command` is told before `spawn`. */
  datatype SpawnConfig = SpawnConfig(
    program: string,
    args: seq<string>,
    clearEnv: bool,
    envs: seq<(string, string)>,
    currentDir: Option<string>,
    stdin: Stdio,
    stdout: Stdio,
    stderr: Stdio)

  /** What joining a thread reports: the closure returned (with an optional I/O error),
      or it panicked with a message. */
  datatype JoinOutcome = Returned(failure: Option<IoError>) | Panicked(message: string)

  /** What waiting for a child reports. */
  datatype WaitOutcome = Exit(status: ExitStatus) | WaitFailed(err: IoError)

  /** The behaviour of one child as the operating system would report it: whether `spawn`
      fails, whether writing a byte buffer into its stdin fails, what a stdin feeder thread
      returns when joined, what waiting for it reports, and what it writes to stdout and
      stderr. */
  datatype ProcessScript = ProcessScript(
    spawnError: Option<IoError>,
    writeError: Option<IoError>,
    feeder: JoinOutcome,
    wait: WaitOutcome,
    stdout: seq<bv8>,
    stderr: seq<bv8>)

  /** A spawned child: the configuration it was spawned with, the pipe ends the parent still
      holds, the bytes the parent has written into its stdin, and its script. */
  datatype Child = Child(
    stage: nat,
    config: SpawnConfig,
    stdin: Option<Pipe>,
    stdout: Option<Pipe>,
    stderr: Option<Pipe>,
    written: seq<bv8>,
    script: ProcessScript)

  /** The parent holds a pipe end exactly for the streams that were configured `Piped`. */
  function HeldEnd(stage: nat, stream: Stream, how: Stdio): Option<Pipe>
  {
    if how == Piped then Some(Pipe(stage, stream)) else None
  }

  /** `Command::spawn`. */
  function Spawn(stage: nat, config: SpawnConfig, script: ProcessScript): (r: Result<Child>)
    ensures r.Err? <==> script.spawnError.Some?
    ensures r.Err? ==> r.error == Io(script.spawnError.value)
    ensures r.Ok? ==> r.value.config == config && r.value.script == script && r.value.written == []
    ensures r.Ok? ==> (r.value.stdin.Some? <==> config.stdin == Piped)
                      && (r.value.stdout.Some? <==> config.stdout == Piped)
                      && (r.value.stderr.Some? <==> config.stderr == Piped)
  {
    if script.spawnError.Some? then Err(Io(script.spawnError.value))
    else Ok(Child(stage, config,
                  HeldEnd(stage, StdinStream, config.stdin),
                  HeldEnd(stage, StdoutStream, config.stdout),
                  HeldEnd(stage, StderrStream, config.stderr),
                  [], script))
  }

  /** The environment a child starts with: the parent's (or nothing, when cleared), then
      each override applied in order. */
  function ChildEnvironment(config: SpawnConfig, parent: map<string, string>): (r: map<string, string>)
    ensures !config.clearEnv ==> parent.Keys <= r.Keys
    ensures forall k :: k in r && (config.clearEnv || k !in parent) ==>
              exists i :: 0 <= i < |config.envs| && config.envs[i].0 == k
  {
    ApplyEnv(if config.clearEnv then map[] else parent, config.envs)
  }

  /** The overrides applied to `base` in order: every base key stays, every new key comes
      from an override, and the last override's value is the one kept. */
  function ApplyEnv(base: map<string, string>, envs: seq<(string, string)>): (r: map<string, string>)
    ensures base.Keys <= r.Keys
    ensures forall k :: k in r && k !in base ==> exists i :: 0 <= i < |envs| && envs[i].0 == k
    ensures envs != [] ==> envs[|envs| - 1].0 in r && r[envs[|envs| - 1].0] == envs[|envs| - 1].1
    decreases |envs|
  {
    if envs == [] then base
    else ApplyEnv(base[envs[0].0 := envs[0].1], envs[1..])
  }
}
